/** The in-memory path of the login failure limiter, with the login flow around it. */
module LoginLimiter {
  import opened Text

  /** Settings, and lower-casing, which is left abstract. */
  datatype Config = Config(limit: nat, window: real, lower: string -> string) {
    ghost predicate Valid() {
      window > 0.0
    }
  }

  const SUBJECT_PREFIX := "auth:login-fail:subject:"
  const IP_PREFIX := "auth:login-fail:ip:"

  datatype Entry = Entry(count: nat, expires: real)
  type Memory = map<string, Entry>

  /** One login attempt: whether the credentials are right, and when it happens. */
  datatype Login = Login(subject: string, ip: string, correct: bool, now: real)
  datatype Outcome = TooMany | Invalid | Welcome

  function SubjectKey(cfg: Config, subject: string): string {
    SUBJECT_PREFIX + cfg.lower(Strip(subject))
  }

  function IpKey(ip: string): string {
    IP_PREFIX + ip
  }

  lemma KeysDiffer(cfg: Config, subject: string, ip: string)
    ensures SubjectKey(cfg, subject) != IpKey(ip)
  {
    assert SubjectKey(cfg, subject)[16] == 's' && IpKey(ip)[16] == 'i';
  }

  /** Addresses have keys of their own, and so have subjects, up to white space around them and
      the case of their letters. */
  lemma KeysTellApart(cfg: Config, subject: string, other: string, ip: string, otherIp: string)
    ensures IpKey(ip) == IpKey(otherIp) <==> ip == otherIp
    ensures SubjectKey(cfg, subject) == SubjectKey(cfg, other) <==> cfg.lower(Strip(subject)) == cfg.lower(Strip(other))
  {
    SamePrefix(IP_PREFIX, ip, otherIp);
    SamePrefix(SUBJECT_PREFIX, cfg.lower(Strip(subject)), cfg.lower(Strip(other)));
  }

  lemma SamePrefix(prefix: string, a: string, b: string)
    ensures prefix + a == prefix + b <==> a == b
  {
    assert (prefix + a)[|prefix|..] == a && (prefix + b)[|prefix|..] == b;
  }

  // ---------- what the methods do to the dictionary ----------

  predicate Live(mem: Memory, key: string, now: real) {
    key in mem && now < mem[key].expires
  }

  function CountOf(mem: Memory, key: string, now: real): nat {
    if Live(mem, key, now) then mem[key].count else 0
  }

  function Pruned(mem: Memory, key: string, now: real): Memory {
    if key in mem && !Live(mem, key, now) then mem - {key} else mem
  }

  function Incremented(cfg: Config, mem: Memory, key: string, now: real): Memory {
    mem[key := Entry(CountOf(mem, key, now) + 1, if Live(mem, key, now) then mem[key].expires else now + cfg.window)]
  }

  predicate Allowed(cfg: Config, mem: Memory, l: Login) {
    CountOf(mem, SubjectKey(cfg, l.subject), l.now) < cfg.limit && CountOf(mem, IpKey(l.ip), l.now) < cfg.limit
  }

  function Checked(cfg: Config, mem: Memory, l: Login): Memory {
    Pruned(Pruned(mem, SubjectKey(cfg, l.subject), l.now), IpKey(l.ip), l.now)
  }

  function Failed(cfg: Config, mem: Memory, l: Login): Memory {
    Incremented(cfg, Incremented(cfg, mem, SubjectKey(cfg, l.subject), l.now), IpKey(l.ip), l.now)
  }

  function Cleared(cfg: Config, mem: Memory, l: Login): Memory {
    mem - {SubjectKey(cfg, l.subject), IpKey(l.ip)}
  }

  function AfterLogin(cfg: Config, mem: Memory, l: Login): Memory {
    if !Allowed(cfg, mem, l) then Checked(cfg, mem, l)
    else if l.correct then Cleared(cfg, Checked(cfg, mem, l), l)
    else Failed(cfg, Checked(cfg, mem, l), l)
  }

  function CountAfter(mem: Memory, key: string): nat {
    if key in mem then mem[key].count else 0
  }

  class LoginFailureLimiter {
    const cfg: Config
    var memory: Memory

    constructor (cfg: Config)
      ensures this.cfg == cfg && memory == map[]
    {
      this.cfg := cfg;
      memory := map[];
    }

    /** The entry of a key is there as it was, or still missing. */
    static predicate Same(key: string, was: Memory, now: Memory) {
      (key in now <==> key in was) && (key in was ==> now[key] == was[key])
    }

    /** One failure more: in the window that is open, or as the first of a new one. */
    predicate OneMore(key: string, time: real, was: Memory, now: Memory) {
      key in now && now[key] == if key in was && time < was[key].expires then Entry(was[key].count + 1, was[key].expires)
                                else Entry(1, time + cfg.window)
    }

    method GetCount(key: string, now: real) returns (count: nat)
      modifies this
      ensures count == CountOf(old(memory), key, now)
      ensures memory == Pruned(old(memory), key, now)
      ensures var live := key in old(memory) && now < old(memory)[key].expires;
              && count == (if live then old(memory)[key].count else 0)
              && memory == if live then old(memory) else old(memory) - {key}
    {
      if key !in memory {
        return 0;
      }
      var entry := memory[key];
      if entry.expires <= now {
        memory := memory - {key};
        return 0;
      }
      return entry.count;
    }

    method Increment(key: string, now: real) returns (count: nat)
      modifies this
      ensures memory == Incremented(cfg, old(memory), key, now)
      ensures var live := key in old(memory) && now < old(memory)[key].expires;
              && count == (if live then old(memory)[key].count + 1 else 1)
              && memory == old(memory)[key := Entry(count, if live then old(memory)[key].expires else now + cfg.window)]
    {
      var expires;
      if key in memory {
        count, expires := memory[key].count, memory[key].expires;
      } else {
        count, expires := 0, now + cfg.window;
      }
      if expires <= now {
        count := 0;
        expires := now + cfg.window;
      }
      count := count + 1;
      memory := memory[key := Entry(count, expires)];
    }

    method EnsureAllowed(l: Login) returns (allowed: bool)
      modifies this
      ensures allowed == Allowed(cfg, old(memory), l)
      ensures memory == Checked(cfg, old(memory), l)
      ensures allowed <==> forall key | key in {SubjectKey(cfg, l.subject), IpKey(l.ip)} ::
                             (if key in old(memory) && l.now < old(memory)[key].expires then old(memory)[key].count
                              else 0) < cfg.limit
    {
      KeysDiffer(cfg, l.subject, l.ip);
      var subjectCount := GetCount(SubjectKey(cfg, l.subject), l.now);
      var ipCount := GetCount(IpKey(l.ip), l.now);
      allowed := subjectCount < cfg.limit && ipCount < cfg.limit;
    }

    method RecordFailure(l: Login) returns (blocked: bool)
      modifies this
      ensures memory == Failed(cfg, old(memory), l)
      ensures blocked <==>
              cfg.limit <= memory[SubjectKey(cfg, l.subject)].count || cfg.limit <= memory[IpKey(l.ip)].count
    {
      KeysDiffer(cfg, l.subject, l.ip);
      var subjectCount := Increment(SubjectKey(cfg, l.subject), l.now);
      var ipCount := Increment(IpKey(l.ip), l.now);
      blocked := cfg.limit <= subjectCount || cfg.limit <= ipCount;
    }

    method Clear(l: Login)
      modifies this
      ensures memory == Cleared(cfg, old(memory), l)
    {
      memory := memory - {SubjectKey(cfg, l.subject)};
      memory := memory - {IpKey(l.ip)};
    }

    /** The login request: check, then record the failure or clear. */
    method Attempt(l: Login) returns (outcome: Outcome)
      requires cfg.Valid()
      modifies this
      ensures memory == AfterLogin(cfg, old(memory), l)
      ensures forall key | key != SubjectKey(cfg, l.subject) && key != IpKey(l.ip) :: Same(key, old(memory), memory)
      ensures outcome == Welcome ==>
                SubjectKey(cfg, l.subject) !in memory && IpKey(l.ip) !in memory
      ensures Allowed(cfg, old(memory), l) && !l.correct ==>
                && OneMore(SubjectKey(cfg, l.subject), l.now, old(memory), memory)
                && OneMore(IpKey(l.ip), l.now, old(memory), memory)
      ensures !Allowed(cfg, old(memory), l) ==>
                outcome == TooMany && forall key | key in memory :: Same(key, old(memory), memory)
      ensures outcome == Welcome <==> Allowed(cfg, old(memory), l) && l.correct
      ensures outcome == Invalid <==> Allowed(cfg, old(memory), l) && !l.correct
                                      && CountAfter(memory, SubjectKey(cfg, l.subject)) < cfg.limit
                                      && CountAfter(memory, IpKey(l.ip)) < cfg.limit
    {
      LoginEffects(cfg, memory, l, SubjectKey(cfg, l.subject));
      LoginEffects(cfg, memory, l, IpKey(l.ip));
      var allowed := EnsureAllowed(l);
      if !allowed {
        return TooMany;
      }
      if l.correct {
        Clear(l);
        return Welcome;
      }
      var blocked := RecordFailure(l);
      outcome := if blocked then TooMany else Invalid;
    }
  }

  // ---------- runs of sequential logins ----------

  function Run(cfg: Config, logins: seq<Login>): Memory {
    if logins == [] then map[] else AfterLogin(cfg, Run(cfg, logins[..|logins| - 1]), logins[|logins| - 1])
  }

  predicate NonDecreasing(logins: seq<Login>) {
    forall i, j | 0 <= i < j < |logins| :: logins[i].now <= logins[j].now
  }

  predicate Touches(cfg: Config, l: Login, key: string) {
    key == SubjectKey(cfg, l.subject) || key == IpKey(l.ip)
  }

  predicate Records(cfg: Config, mem: Memory, l: Login, key: string) {
    Touches(cfg, l, key) && Allowed(cfg, mem, l) && !l.correct
  }

  predicate Clears(cfg: Config, mem: Memory, l: Login, key: string) {
    Touches(cfg, l, key) && Allowed(cfg, mem, l) && l.correct
  }

  /** Failures recorded for the key at `from` or later, since it was last cleared. */
  function FailuresSince(cfg: Config, logins: seq<Login>, key: string, from: real): nat {
    if logins == [] then 0
    else
      var n := |logins| - 1;
      var mem, l := Run(cfg, logins[..n]), logins[n];
      if Clears(cfg, mem, l, key) then 0
      else FailuresSince(cfg, logins[..n], key, from) + if Records(cfg, mem, l, key) && from <= l.now then 1 else 0
  }

  /** The window of a key: when it opened and how many failures it has seen. */
  datatype Window = NoWindow | Open(start: real, count: nat)

  function WindowOf(cfg: Config, logins: seq<Login>, key: string): Window {
    if logins == [] then NoWindow
    else
      var n := |logins| - 1;
      NextWindow(cfg, Run(cfg, logins[..n]), logins[n], key, WindowOf(cfg, logins[..n], key))
  }

  predicate SaneWindow(cfg: Config, w: Window, now: real) {
    w.Open? ==> w.start <= now && 1 <= w.count <= cfg.limit
  }

  /** The window of a key after one login. */
  function NextWindow(cfg: Config, mem: Memory, l: Login, key: string, w: Window): Window {
    if Clears(cfg, mem, l, key) then NoWindow
    else if !Records(cfg, mem, l, key) then w
    else if w.NoWindow? || w.start + cfg.window <= l.now then Open(l.now, 1)
    else Open(w.start, w.count + 1)
  }

  /** The dictionary holds the window, or has forgotten one that is over. */
  predicate Holds(cfg: Config, mem: Memory, key: string, w: Window, now: real) {
    if key in mem then w == Open(mem[key].expires - cfg.window, mem[key].count)
    else w.NoWindow? || w.start + cfg.window <= now
  }

  /** What one login does to the entry of one key. */
  lemma KeyAfterLogin(cfg: Config, mem: Memory, l: Login, key: string)
    ensures var after := AfterLogin(cfg, mem, l);
            && (!Touches(cfg, l, key) ==> (key in after <==> key in mem) && (key in mem ==> after[key] == mem[key]))
            && (Clears(cfg, mem, l, key) ==> key !in after)
            && (Records(cfg, mem, l, key) ==>
                  && key in after
                  && after[key] == Entry(CountOf(mem, key, l.now) + 1,
                                         if Live(mem, key, l.now) then mem[key].expires else l.now + cfg.window))
            && (Touches(cfg, l, key) && !Allowed(cfg, mem, l) ==>
                  (key in after <==> Live(mem, key, l.now)) && (key in after ==> after[key] == mem[key]))
  {
    hide SubjectKey, IpKey;
    KeysDiffer(cfg, l.subject, l.ip);
  }

  /** The same for both keys of the login and for any other. */
  ghost predicate LoginEffect(cfg: Config, mem: Memory, l: Login, key: string) {
    var after := AfterLogin(cfg, mem, l);
    && (!Touches(cfg, l, key) ==> LoginFailureLimiter.Same(key, mem, after))
    && (Touches(cfg, l, key) && Allowed(cfg, mem, l) && l.correct ==> key !in after)
    && (Touches(cfg, l, key) && Allowed(cfg, mem, l) && !l.correct ==>
          && key in after
          && after[key] == if key in mem && l.now < mem[key].expires then Entry(mem[key].count + 1, mem[key].expires)
                           else Entry(1, l.now + cfg.window))
    && (!Allowed(cfg, mem, l) && key in after ==> key in mem && after[key] == mem[key])
  }

  lemma LoginEffects(cfg: Config, mem: Memory, l: Login, key: string)
    ensures LoginEffect(cfg, mem, l, key)
  {
    KeyAfterLogin(cfg, mem, l, key);
    hide AfterLogin, SubjectKey, IpKey, Allowed;
  }

  lemma LoginHoldsWindow(cfg: Config, mem: Memory, l: Login, key: string, w: Window)
    requires cfg.Valid() && Holds(cfg, mem, key, w, l.now) && SaneWindow(cfg, w, l.now)
    ensures Holds(cfg, AfterLogin(cfg, mem, l), key, NextWindow(cfg, mem, l, key, w), l.now)
    ensures SaneWindow(cfg, NextWindow(cfg, mem, l, key, w), l.now)
  {
    KeyAfterLogin(cfg, mem, l, key);
    AllowedCount(cfg, mem, l, key);
    hide AfterLogin, Touches, CountOf, Allowed;
    if !Touches(cfg, l, key) {
    } else if !Allowed(cfg, mem, l) {
    } else if l.correct {
    } else {
      assert Live(mem, key, l.now) <==> !(w.NoWindow? || w.start + cfg.window <= l.now);
    }
  }

  lemma HoldsLater(cfg: Config, mem: Memory, key: string, w: Window, now: real, later: real)
    requires Holds(cfg, mem, key, w, now) && SaneWindow(cfg, w, now) && now <= later
    ensures Holds(cfg, mem, key, w, later) && SaneWindow(cfg, w, later)
  {}

  lemma {:induction false} MemoryHoldsWindow(cfg: Config, logins: seq<Login>, key: string, now: real)
    requires cfg.Valid() && NonDecreasing(logins)
    requires forall i | 0 <= i < |logins| :: logins[i].now <= now
    ensures Holds(cfg, Run(cfg, logins), key, WindowOf(cfg, logins, key), now)
    ensures SaneWindow(cfg, WindowOf(cfg, logins, key), now)
  {
    if logins != [] {
      hide AfterLogin, NextWindow, Holds, SaneWindow;
      var n := |logins| - 1;
      var mem, l := Run(cfg, logins[..n]), logins[n];
      MemoryHoldsWindow(cfg, logins[..n], key, l.now);
      LoginHoldsWindow(cfg, mem, l, key, WindowOf(cfg, logins[..n], key));
      HoldsLater(cfg, Run(cfg, logins), key, WindowOf(cfg, logins, key), l.now, now);
    }
  }

  lemma AllowedCount(cfg: Config, mem: Memory, l: Login, key: string)
    ensures Records(cfg, mem, l, key) ==> CountOf(mem, key, l.now) < cfg.limit
    ensures Live(mem, key, l.now) ==> CountOf(mem, key, l.now) == mem[key].count
    ensures !Live(mem, key, l.now) ==> CountOf(mem, key, l.now) == 0
  {}

  lemma {:induction false} NoneSince(cfg: Config, logins: seq<Login>, key: string, from: real)
    requires forall i | 0 <= i < |logins| :: logins[i].now < from
    ensures FailuresSince(cfg, logins, key, from) == 0
  {
    hide Run, Records, Clears;
    if logins != [] {
      NoneSince(cfg, logins[..|logins| - 1], key, from);
    }
  }

  /** Without a window no failure counts. */
  lemma {:induction false} NoWindowNoFailures(cfg: Config, logins: seq<Login>, key: string, from: real)
    requires WindowOf(cfg, logins, key).NoWindow?
    ensures FailuresSince(cfg, logins, key, from) == 0
  {
    if logins != [] {
      hide Run, Records, Clears;
      var n := |logins| - 1;
      if !Clears(cfg, Run(cfg, logins[..n]), logins[n], key) {
        NoWindowNoFailures(cfg, logins[..n], key, from);
      }
    }
  }

  /** The counter of the window is the number of failures since it opened or was cleared. */
  lemma {:induction false} WindowCounts(cfg: Config, logins: seq<Login>, key: string)
    requires cfg.Valid() && NonDecreasing(logins) && WindowOf(cfg, logins, key).Open?
    ensures var w := WindowOf(cfg, logins, key); w.count == FailuresSince(cfg, logins, key, w.start)
  {
    hide Run, Records, Clears;
    var n := |logins| - 1;
    var l, w := logins[n], WindowOf(cfg, logins[..n], key);
    if w.NoWindow? {
      NoWindowNoFailures(cfg, logins[..n], key, l.now);
    } else {
      WindowCounts(cfg, logins[..n], key);
      if w.start + cfg.window <= l.now {
        WindowBefore(cfg, logins[..n], key, l.now);
      }
      WindowPast(cfg, logins[..n], key);
    }
  }

  /** A window opened with some login. */
  lemma {:induction false} WindowPast(cfg: Config, logins: seq<Login>, key: string)
    requires NonDecreasing(logins) && WindowOf(cfg, logins, key).Open?
    ensures logins != [] && WindowOf(cfg, logins, key).start <= logins[|logins| - 1].now
  {
    hide Run, Records, Clears;
    var n := |logins| - 1;
    if WindowOf(cfg, logins[..n], key).Open? {
      WindowPast(cfg, logins[..n], key);
    }
  }

  /** All failures of a window that is over lie before the next one opens. */
  lemma {:induction false} WindowBefore(cfg: Config, logins: seq<Login>, key: string, from: real)
    requires cfg.Valid() && NonDecreasing(logins)
    requires var w := WindowOf(cfg, logins, key); w.Open? && w.start + cfg.window <= from
    ensures FailuresSince(cfg, logins, key, from) == 0
  {
    hide Run, Records, Clears;
    var n := |logins| - 1;
    var mem, l, w := Run(cfg, logins[..n]), logins[n], WindowOf(cfg, logins[..n], key);
    if Records(cfg, mem, l, key) {
      if w.NoWindow? || w.start + cfg.window <= l.now {
        assert l.now < from;
        NoneSince(cfg, logins, key, from);
      } else {
        WindowBefore(cfg, logins[..n], key, from);
      }
    } else {
      WindowBefore(cfg, logins[..n], key, from);
    }
  }

  /** Every entry counts the failures recorded since its window opened or was last cleared, at
      least one and never more than the limit; and at any time the limiter sees the failures of
      the window opened last, or none once that window is over. */
  lemma CounterIsFailures(cfg: Config, logins: seq<Login>, key: string, now: real)
    requires cfg.Valid() && NonDecreasing(logins)
    requires forall i | 0 <= i < |logins| :: logins[i].now <= now
    ensures var mem, w := Run(cfg, logins), WindowOf(cfg, logins, key);
            && (key in mem ==>
                  && mem[key].count == FailuresSince(cfg, logins, key, mem[key].expires - cfg.window)
                  && 1 <= mem[key].count <= cfg.limit)
            && CountOf(mem, key, now) ==
               if w.Open? && now < w.start + cfg.window then FailuresSince(cfg, logins, key, w.start) else 0
  {
    MemoryHoldsWindow(cfg, logins, key, now);
    if WindowOf(cfg, logins, key).Open? {
      WindowCounts(cfg, logins, key);
    }
    hide Run, FailuresSince, WindowOf;
  }

  // ---------- how many failures fit in a span ----------

  /** Failures recorded for the key in [from, to). */
  function FailuresIn(cfg: Config, logins: seq<Login>, key: string, from: real, to: real): nat {
    if logins == [] then 0
    else
      var n := |logins| - 1;
      FailuresIn(cfg, logins[..n], key, from, to) +
      if Records(cfg, Run(cfg, logins[..n]), logins[n], key) && from <= logins[n].now < to then 1 else 0
  }

  /** The key is not cleared in [from, to). */
  ghost predicate NotCleared(cfg: Config, logins: seq<Login>, key: string, from: real, to: real) {
    forall i | 0 <= i < |logins| && from <= logins[i].now < to :: !Clears(cfg, Run(cfg, logins[..i]), logins[i], key)
  }

  /** How the failures of the span divide over the windows, depending on where the present
      window opened. */
  ghost predicate SpanOk(cfg: Config, w: Window, failures: nat, from: real, to: real, last: real) {
    && failures <= 2 * cfg.limit - 1
    && (last < from ==> failures == 0)
    && (last < to ==>
          && (w.NoWindow? ==> failures == 0)
          && (w.Open? && w.start < from ==> failures <= w.count - 1)
          && (w.Open? && from <= w.start ==> failures <= w.count + cfg.limit - 1))
  }

  /** The failures of a span, said of the logins: wrong credentials, let through by the check,
      for this subject or from this address. */
  lemma {:induction false} FailuresInAre(cfg: Config, logins: seq<Login>, key: string, from: real, to: real, at: set<nat>)
    requires forall i: nat {:trigger i in at} :: i in at <==>
               && i < |logins| && from <= logins[i].now < to && !logins[i].correct
               && (key == SubjectKey(cfg, logins[i].subject) || key == IpKey(logins[i].ip))
               && Allowed(cfg, Run(cfg, logins[..i]), logins[i])
    ensures FailuresIn(cfg, logins, key, from, to) == |at|
  {
    hide Run, Allowed, SubjectKey, IpKey;
    if logins == [] {
      assert forall i: nat :: i !in at;
    } else {
      var n: nat := |logins| - 1;
      forall i: nat | i < n ensures logins[..n][..i] == logins[..i] && logins[..n][i] == logins[i] {
      }
      FailuresInAre(cfg, logins[..n], key, from, to, at - {n});
    }
  }

  /** The failures since a time: none before a login that cleared the key counts. */
  lemma {:induction false} FailuresSinceAre(cfg: Config, logins: seq<Login>, key: string, from: real, at: set<nat>)
    requires forall i: nat {:trigger i in at} :: i in at <==>
               && i < |logins| && from <= logins[i].now && Records(cfg, Run(cfg, logins[..i]), logins[i], key)
               && forall k: nat | i < k < |logins| :: !Clears(cfg, Run(cfg, logins[..k]), logins[k], key)
    ensures FailuresSince(cfg, logins, key, from) == |at|
  {
    hide Run, Records, Clears;
    if logins == [] {
      assert forall i: nat :: i !in at;
    } else {
      var n: nat := |logins| - 1;
      forall i: nat | i < n ensures logins[..n][..i] == logins[..i] && logins[..n][i] == logins[i] {
      }
      RecordsOrClears(cfg, Run(cfg, logins[..n]), logins[n], key);
      if Clears(cfg, Run(cfg, logins[..n]), logins[n], key) {
        assert forall i: nat :: i !in at;
      } else {
        FailuresSinceAre(cfg, logins[..n], key, from, at - {n});
      }
    }
  }

  lemma RecordsOrClears(cfg: Config, mem: Memory, l: Login, key: string)
    ensures !(Records(cfg, mem, l, key) && Clears(cfg, mem, l, key))
  {}

  lemma SpanStep(cfg: Config, mem: Memory, l: Login, key: string, w: Window, failures: nat, from: real, last: real)
    requires cfg.Valid() && cfg.limit >= 1 && last <= l.now
    requires Holds(cfg, mem, key, w, l.now) && SaneWindow(cfg, w, last)
    requires SpanOk(cfg, w, failures, from, from + cfg.window, last)
    requires from <= l.now < from + cfg.window ==> !Clears(cfg, mem, l, key)
    ensures SpanOk(cfg, NextWindow(cfg, mem, l, key, w),
                   failures + if Records(cfg, mem, l, key) && from <= l.now < from + cfg.window then 1 else 0,
                   from, from + cfg.window, l.now)
  {
    AllowedCount(cfg, mem, l, key);
    LoginHoldsWindow(cfg, mem, l, key, w);
    hide Records, Clears, CountOf;
    if Records(cfg, mem, l, key) && w.Open? && l.now < w.start + cfg.window {
      assert Live(mem, key, l.now);
    }
  }

  lemma {:induction false} SpanHolds(cfg: Config, logins: seq<Login>, key: string, from: real)
    requires cfg.Valid() && cfg.limit >= 1 && NonDecreasing(logins) && logins != []
    requires NotCleared(cfg, logins, key, from, from + cfg.window)
    ensures SpanOk(cfg, WindowOf(cfg, logins, key), FailuresIn(cfg, logins, key, from, from + cfg.window),
                   from, from + cfg.window, logins[|logins| - 1].now)
  {
    hide Run, SpanOk, Records, Clears, NextWindow, Holds;
    var n := |logins| - 1;
    var l, to := logins[n], from + cfg.window;
    var before := logins[..n];
    MemoryHoldsWindow(cfg, before, key, l.now);
    NotClearedInit(cfg, logins, key, from, to);
    if before == [] {
      SpanStart(cfg, from, l.now);
      SpanStep(cfg, Run(cfg, before), l, key, NoWindow, 0, from, l.now);
    } else {
      SpanHolds(cfg, before, key, from);
      MemoryHoldsWindow(cfg, before, key, before[n - 1].now);
      SpanStep(cfg, Run(cfg, before), l, key, WindowOf(cfg, before, key), FailuresIn(cfg, before, key, from, to), from,
               before[n - 1].now);
    }
  }

  lemma SpanStart(cfg: Config, from: real, last: real)
    requires cfg.limit >= 1
    ensures SpanOk(cfg, NoWindow, 0, from, from + cfg.window, last)
  {}

  lemma NotClearedInit(cfg: Config, logins: seq<Login>, key: string, from: real, to: real)
    requires NotCleared(cfg, logins, key, from, to) && logins != []
    ensures var n := |logins| - 1;
            && NotCleared(cfg, logins[..n], key, from, to)
            && (from <= logins[n].now < to ==> !Clears(cfg, Run(cfg, logins[..n]), logins[n], key))
  {
    hide Clears, Run;
    var n := |logins| - 1;
    forall i | 0 <= i < n && from <= logins[..n][i].now < to
      ensures !Clears(cfg, Run(cfg, logins[..n][..i]), logins[..n][i], key)
    {
      assert logins[..n][..i] == logins[..i];
    }
  }

  /** No span as long as the window holds 2 * limit failures of a key that is not cleared in
      it, although the windows are fixed and not sliding. */
  lemma FailureBound(cfg: Config, logins: seq<Login>, key: string, from: real)
    requires cfg.Valid() && cfg.limit >= 1 && NonDecreasing(logins)
    requires NotCleared(cfg, logins, key, from, from + cfg.window)
    ensures FailuresIn(cfg, logins, key, from, from + cfg.window) <= 2 * cfg.limit - 1
  {
    if logins != [] {
      SpanHolds(cfg, logins, key, from);
    }
  }
}
