/** The window bound is reached, and the settings under which the counters are exact are exactly these. */
module LimiterLimits {
  import opened Wrappers
  import opened ClientIds
  import opened Limiter
  import opened LimiterRuns
  import opened LimiterProofs
  import opened LimiterBounds
  import opened LimiterExact

  // ------------------------------------------------------------------ failures of new clients at one instant

  /** The log with n more failures at one instant, by the clients numbered from `from` on. */
  ghost function Burst(log: seq<Event>, from: nat, n: nat, at: int): seq<Event> {
    if n == 0 then log else Burst(log, from, n - 1, at) + [Failed(Name(from + n - 1), at)]
  }

  /** The counter b after n failures at one instant. */
  function Filled(b: Option<Bucket>, n: nat, at: int, window: int): Option<Bucket> {
    if n == 0 then b
    else if b.Some? && IsLive(b.value, at) then Some(Bucket(b.value.count + n, b.value.resetAt))
    else Some(Bucket(n, at + window))
  }

  lemma FilledStep(b: Option<Bucket>, n: nat, at: int, window: int)
    requires window > 0 && n > 0
    ensures CountOf(Filled(b, n - 1, at, window), at) == CountOf(b, at) + n - 1
    ensures Some(Counted(Filled(b, n - 1, at, window), window, at)) == Filled(b, n, at, window)
  {}

  /** A burst fills the ideal global counter. */
  lemma {:induction false} BurstFills(log: seq<Event>, from: nat, n: nat, at: int, window: int)
    requires window > 0
    ensures Ideal(Burst(log, from, n, at), GlobalKey, window) == Filled(Ideal(log, GlobalKey, window), n, at, window)
  {
    if n > 0 {
      BurstFills(log, from, n - 1, at, window);
      FilledStep(Ideal(log, GlobalKey, window), n, at, window);
      IdealAppend(Burst(log, from, n - 1, at), Failed(Name(from + n - 1), at), GlobalKey, window);
    }
  }

  lemma {:induction false} BurstCounts(log: seq<Event>, from: nat, n: nat, at: int, lo: int)
    ensures FailuresFrom(Burst(log, from, n, at), lo) == FailuresFrom(log, lo) + if at >= lo then n else 0
  {
    if n > 0 {
      BurstCounts(log, from, n - 1, at, lo);
      FailuresFromAppend(Burst(log, from, n - 1, at), Failed(Name(from + n - 1), at), lo);
    }
  }

  /** It opens one bucket for each of its clients, and touches no other client's. */
  lemma {:induction false} BurstOpens(log: seq<Event>, from: nat, n: nat, at: int, window: int, i: nat)
    requires from <= i ==> Ideal(log, ClientKey(Name(i)), window).None?
    ensures Ideal(Burst(log, from, n, at), ClientKey(Name(i)), window) ==
      if from <= i < from + n then Some(Bucket(1, at + window)) else Ideal(log, ClientKey(Name(i)), window)
  {
    if n > 0 {
      BurstOpens(log, from, n - 1, at, window, i);
      IdealAppend(Burst(log, from, n - 1, at), Failed(Name(from + n - 1), at), ClientKey(Name(i)), window);
      NamesDiffer(i, from + n - 1);
    }
  }

  // ------------------------------------------------------------------ new clients are let in

  /** A run of clients numbered below m, under a clock that never goes backwards nor beyond `at`. */
  predicate Earlier(run: seq<Attempt>, m: nat, at: int) {
    run == [] ||
    var last := run[|run| - 1];
    Code(last.client) < m && last.at <= at && Earlier(run[..|run| - 1], m, last.at)
  }

  lemma EarlierAppend(run: seq<Attempt>, a: Attempt, m: nat)
    requires Earlier(run, m, a.at) && Code(a.client) < m
    ensures Earlier(run + [a], m, a.at)
  {
    assert (run + [a])[..|run|] == run;
  }

  lemma {:induction false} EarlierWidens(run: seq<Attempt>, m: nat, at: int, n: nat, later: int)
    requires Earlier(run, m, at) && m <= n && at <= later
    ensures Earlier(run, n, later)
  {
    if run != [] { EarlierWidens(run[..|run| - 1], m, run[|run| - 1].at, n, run[|run| - 1].at); }
  }

  lemma {:induction false} EarlierIsOrdered(run: seq<Attempt>, m: nat, at: int)
    requires Earlier(run, m, at)
    ensures Ordered(run) && forall i :: 0 <= i < |run| ==> run[i].at <= at
  {
    if run != [] { EarlierIsOrdered(run[..|run| - 1], m, run[|run| - 1].at); }
  }

  ghost predicate KeysBelow(s: Store, m: nat) {
    forall k :: k in s.buckets && k.ClientKey? ==> Code(k.client) < m
  }

  lemma IncrKeys(s: Store, k: Key, window: int, now: int, m: nat)
    requires KeysBelow(s, m) && (k.ClientKey? ==> Code(k.client) < m)
    ensures KeysBelow(AfterIncr(s, k, window, now), m)
  {}

  lemma AttemptKeys(s: Store, cfg: Config, a: Attempt, m: nat)
    requires KeysBelow(s, m) && Code(a.client) < m
    ensures KeysBelow(AfterAttempt(s, cfg, a), m)
  {
    var c := AfterCheck(s, cfg, a.client, a.at);
    assert KeysBelow(c, m);
    IncrKeys(c, ClientKey(a.client), Window(cfg), a.at, m);
    IncrKeys(AfterIncr(c, ClientKey(a.client), Window(cfg), a.at), GlobalKey, Window(cfg), a.at, m);
  }

  lemma {:induction false} RunKeys(cfg: Config, run: seq<Attempt>, m: nat, at: int)
    requires Earlier(run, m, at)
    ensures KeysBelow(StoreAfter(cfg, run), m)
    decreases |run|
  {
    if run != [] {
      RunKeys(cfg, run[..|run| - 1], m, run[|run| - 1].at);
      AttemptKeys(StoreAfter(cfg, run[..|run| - 1]), cfg, run[|run| - 1], m);
    }
  }

  /** A new client is let in unless the global counter stops it. */
  lemma NewcomerIsRecorded(cfg: Config, run: seq<Attempt>, from: nat, at: int)
    requires cfg.maxFailures > 0 && Earlier(run, from, at)
    requires cfg.globalMaxFailures > 0 ==> CountAt(StoreAfter(cfg, run), GlobalKey, at) < cfg.globalMaxFailures
    ensures LogAfter(cfg, run + [Attempt(Name(from), at, Failure)]) == LogAfter(cfg, run) + [Failed(Name(from), at)]
  {
    RunKeys(cfg, run, from, at);
    assert ClientKey(Name(from)) !in StoreAfter(cfg, run).buckets;
    assert (run + [Attempt(Name(from), at, Failure)])[..|run|] == run;
  }

  lemma GlobalIsIdeal(cfg: Config, run: seq<Attempt>, m: nat, at: int)
    requires 0 < cfg.globalMaxFailures <= MEMORY_MAX_BUCKETS && cfg.windowSeconds > 0 && Earlier(run, m, at)
    ensures CountAt(StoreAfter(cfg, run), GlobalKey, at) ==
        CountOf(Ideal(LogAfter(cfg, run), GlobalKey, Window(cfg)), at)
  {
    EarlierIsOrdered(run, m, at);
    RunsAreGlobal(cfg, run, at);
  }

  /** The run followed by a batch. */
  ghost function Then(run: seq<Attempt>, from: nat, n: nat, at: int): seq<Attempt> {
    if n == 0 then run else Then(run, from, n - 1, at) + [Attempt(Name(from + n - 1), at, Failure)]
  }

  lemma {:induction false} ThenIsEarlier(run: seq<Attempt>, from: nat, n: nat, at: int)
    requires Earlier(run, from, at)
    ensures Earlier(Then(run, from, n, at), from + n, at)
  {
    if n > 0 {
      ThenIsEarlier(run, from, n - 1, at);
      EarlierWidens(Then(run, from, n - 1, at), from + n - 1, at, from + n, at);
      EarlierAppend(Then(run, from, n - 1, at), Attempt(Name(from + n - 1), at, Failure), from + n);
    }
  }

  /** The limiter records exactly this log on the run; quantified, so that it need not be unfolded to be passed on. */
  ghost predicate Records(cfg: Config, run: seq<Attempt>, log: seq<Event>) {
    forall r :: r == run ==> LogAfter(cfg, r) == log
  }

  ghost predicate GlobalHasRoom(cfg: Config, run: seq<Attempt>, at: int) {
    CountAt(StoreAfter(cfg, run), GlobalKey, at) < cfg.globalMaxFailures
  }

  lemma IdealHasRoom(cfg: Config, run: seq<Attempt>, log: seq<Event>, m: nat, at: int)
    requires 0 < cfg.globalMaxFailures <= MEMORY_MAX_BUCKETS && cfg.windowSeconds > 0
    requires Earlier(run, m, at) && Records(cfg, run, log)
    requires CountOf(Ideal(log, GlobalKey, Window(cfg)), at) < cfg.globalMaxFailures
    ensures GlobalHasRoom(cfg, run, at)
  {
    GlobalIsIdeal(cfg, run, m, at);
    assert LogAfter(cfg, run) == log;
  }

  lemma NewcomerRecords(cfg: Config, run: seq<Attempt>, log: seq<Event>, from: nat, at: int)
    requires cfg.maxFailures > 0 && Earlier(run, from, at) && Records(cfg, run, log)
    requires cfg.globalMaxFailures > 0 ==> GlobalHasRoom(cfg, run, at)
    ensures Records(cfg, run + [Attempt(Name(from), at, Failure)], log + [Failed(Name(from), at)])
  {
    NewcomerIsRecorded(cfg, run, from, at);
    assert LogAfter(cfg, run) == log;
  }

  lemma BurstHasRoom(log: seq<Event>, from: nat, n: nat, at: int, window: int)
    requires window > 0 && n > 0
    ensures CountOf(Ideal(Burst(log, from, n - 1, at), GlobalKey, window), at)
      == CountOf(Ideal(log, GlobalKey, window), at) + n - 1
  {
    BurstFills(log, from, n - 1, at, window);
    FilledStep(Ideal(log, GlobalKey, window), n, at, window);
  }

  lemma OneMoreIsRecorded(cfg: Config, front: seq<Attempt>, log: seq<Event>, from: nat, n: nat, at: int)
    requires cfg.maxFailures > 0 && 0 < cfg.globalMaxFailures <= MEMORY_MAX_BUCKETS && cfg.windowSeconds > 0
    requires n > 0 && Earlier(front, from + n - 1, at) && Records(cfg, front, Burst(log, from, n - 1, at))
    requires CountOf(Ideal(log, GlobalKey, Window(cfg)), at) + n <= cfg.globalMaxFailures
    ensures Records(cfg, front + [Attempt(Name(from + n - 1), at, Failure)], Burst(log, from, n, at))
  {
    BurstHasRoom(log, from, n, at, Window(cfg));
    IdealHasRoom(cfg, front, Burst(log, from, n - 1, at), from + n - 1, at);
    NewcomerRecords(cfg, front, Burst(log, from, n - 1, at), from + n - 1, at);
  }

  /** Up to the cap: a batch that the ideal global counter has room for is recorded in full. */
  lemma {:induction false} BatchIsRecorded(cfg: Config, run: seq<Attempt>, log: seq<Event>, from: nat, n: nat, at: int)
    requires cfg.maxFailures > 0 && 0 < cfg.globalMaxFailures <= MEMORY_MAX_BUCKETS && cfg.windowSeconds > 0
    requires Earlier(run, from, at) && Records(cfg, run, log)
    requires CountOf(Ideal(log, GlobalKey, Window(cfg)), at) + n <= cfg.globalMaxFailures
    ensures Records(cfg, Then(run, from, n, at), Burst(log, from, n, at))
  {
    if n > 0 {
      BatchIsRecorded(cfg, run, log, from, n - 1, at);
      ThenIsEarlier(run, from, n - 1, at);
      assert Then(run, from, n, at) == Then(run, from, n - 1, at) + [Attempt(Name(from + n - 1), at, Failure)];
      OneMoreIsRecorded(cfg, Then(run, from, n - 1, at), log, from, n, at);
    }
  }

  // ------------------------------------------------------------------ the bound is reached

  /** One failure, and limit - 1 more just before its window ends. */
  ghost function BeforeTheEnd(limit: nat, window: int): seq<Attempt>
    requires limit > 0
  {
    Then([Attempt(Name(0), 0, Failure)], 1, limit - 1, window - 1)
  }

  /** Then, when it has ended, limit more: all by different clients. */
  ghost function Straddling(limit: nat, window: int): seq<Attempt>
    requires limit > 0
  {
    Then(BeforeTheEnd(limit, window), limit, limit, window)
  }

  ghost function LogBeforeTheEnd(limit: nat, window: int): seq<Event>
    requires limit > 0
  {
    Burst([Failed(Name(0), 0)], 1, limit - 1, window - 1)
  }

  ghost function StraddlingLog(limit: nat, window: int): seq<Event>
    requires limit > 0
  {
    Burst(LogBeforeTheEnd(limit, window), limit, limit, window)
  }

  /** A run with its log, seen from a later instant. */
  ghost predicate Stage(cfg: Config, run: seq<Attempt>, log: seq<Event>, m: nat, at: int) {
    Earlier(run, m, at) && Records(cfg, run, log)
  }

  lemma NextStage(cfg: Config, run: seq<Attempt>, log: seq<Event>, from: nat, before: int, n: nat, at: int)
    requires cfg.maxFailures > 0 && 0 < cfg.globalMaxFailures <= MEMORY_MAX_BUCKETS && cfg.windowSeconds > 0
    requires Stage(cfg, run, log, from, before) && before <= at
    requires CountOf(Ideal(log, GlobalKey, Window(cfg)), at) + n <= cfg.globalMaxFailures
    ensures Stage(cfg, Then(run, from, n, at), Burst(log, from, n, at), from + n, at)
  {
    EarlierWidens(run, from, before, from, at);
    ThenIsEarlier(run, from, n, at);
    BatchIsRecorded(cfg, run, log, from, n, at);
  }

  lemma FirstStage(cfg: Config)
    requires cfg.maxFailures > 0
    ensures Stage(cfg, [Attempt(Name(0), 0, Failure)], [Failed(Name(0), 0)], 1, 0)
  {
    assert [] + [Attempt(Name(0), 0, Failure)] == [Attempt(Name(0), 0, Failure)];
    assert [] + [Failed(Name(0), 0)] == [Failed(Name(0), 0)];
    NewcomerRecords(cfg, [], [], 0, 0);
  }

  lemma FirstFills(window: int)
    ensures Ideal([Failed(Name(0), 0)], GlobalKey, window) == Some(Bucket(1, window))
  {
    assert [] + [Failed(Name(0), 0)] == [Failed(Name(0), 0)];
    IdealAppend([], Failed(Name(0), 0), GlobalKey, window);
  }

  lemma StraddlingRoom(limit: nat, window: int)
    requires limit > 0 && window > 1
    ensures Ideal(LogBeforeTheEnd(limit, window), GlobalKey, window) == Some(Bucket(limit, window))
    ensures Ideal(StraddlingLog(limit, window), GlobalKey, window) == Some(Bucket(limit, 2 * window))
  {
    FirstFills(window);
    BurstFills([Failed(Name(0), 0)], 1, limit - 1, window - 1, window);
    BurstFills(LogBeforeTheEnd(limit, window), limit, limit, window, window);
  }

  /** Within the cap the limiter lets all of them in. */
  lemma StraddlingIsRecorded(cfg: Config, limit: nat, window: int)
    requires cfg.maxFailures > 0 && 0 < cfg.globalMaxFailures <= MEMORY_MAX_BUCKETS && cfg.windowSeconds > 0
    requires limit == cfg.globalMaxFailures && window == Window(cfg)
    ensures Stage(cfg, Straddling(limit, window), StraddlingLog(limit, window), 2 * limit, window)
  {
    FirstStage(cfg);
    FirstFills(window);
    NextStage(cfg, [Attempt(Name(0), 0, Failure)], [Failed(Name(0), 0)], 1, 0, limit - 1, window - 1);
    StraddlingRoom(limit, window);
    NextStage(cfg, BeforeTheEnd(limit, window), LogBeforeTheEnd(limit, window), limit, window - 1, limit, window);
  }

  /** A run with 2 * limit - 1 failures in the half-open interval from lo that is as long as the window. */
  ghost predicate ReachesBound(cfg: Config, run: seq<Attempt>, lo: int) {
    && Ordered(run)
    && FailuresIn(LogAfter(cfg, run), lo, lo + 1_000 * cfg.windowSeconds) == 2 * cfg.globalMaxFailures - 1
  }

  lemma StageReachesBound(cfg: Config, run: seq<Attempt>, log: seq<Event>, m: nat, at: int, lo: int)
    requires Stage(cfg, run, log, m, at) && FailuresIn(log, lo, lo + Window(cfg)) == 2 * cfg.globalMaxFailures - 1
    ensures ReachesBound(cfg, run, lo)
  {
    assert lo + 1_000 * cfg.windowSeconds == lo + Window(cfg);
    EarlierIsOrdered(run, m, at);
    assert LogAfter(cfg, run) == log;
  }

  /** So the bound is the best there is: within the cap a run reaches it, for every limit and window. */
  lemma BoundIsReached(cfg: Config)
    requires cfg.maxFailures > 0 && 0 < cfg.globalMaxFailures <= MEMORY_MAX_BUCKETS && cfg.windowSeconds > 0
    ensures ReachesBound(cfg, Straddling(cfg.globalMaxFailures, Window(cfg)), Window(cfg) - 1)
  {
    var limit, window := cfg.globalMaxFailures, Window(cfg);
    StraddlingIsRecorded(cfg, limit, window);
    StraddlingFills(limit, window);
    StageReachesBound(cfg, Straddling(limit, window), StraddlingLog(limit, window), 2 * limit, window, window - 1);
  }

  lemma StraddlingFills(limit: nat, window: int)
    requires limit > 0 && window > 1
    ensures FailuresIn(StraddlingLog(limit, window), window - 1, window - 1 + window) == 2 * limit - 1
  {
    StraddlingCounts(limit, window, window - 1);
    StraddlingCounts(limit, window, 2 * window - 1);
    InIsDifference(StraddlingLog(limit, window), window - 1, 2 * window - 1);
  }

  lemma StraddlingCounts(limit: nat, window: int, lo: int)
    requires limit > 0 && window > 1 && lo > 0
    ensures FailuresFrom(StraddlingLog(limit, window), lo) ==
      (if window - 1 >= lo then limit - 1 else 0) + if window >= lo then limit else 0
  {
    assert [] + [Failed(Name(0), 0)] == [Failed(Name(0), 0)];
    FailuresFromAppend([], Failed(Name(0), 0), lo);
    BurstCounts([Failed(Name(0), 0)], 1, limit - 1, window - 1, lo);
    BurstCounts(LogBeforeTheEnd(limit, window), limit, limit, window, lo);
  }

  // ------------------------------------------------------------------ exactly when the counters are exact

  /** Every counter in use is the number of failures in its window, on every run. */
  ghost predicate CountersExact(cfg: Config) {
    forall run, now, k :: InUse(cfg, run, now, k) ==> CounterExact(cfg, run, now, k)
  }

  ghost predicate InUse(cfg: Config, run: seq<Attempt>, now: int, k: Key) {
    Ordered(run) && (run != [] ==> run[|run| - 1].at <= now) && (k == GlobalKey ==> cfg.globalMaxFailures > 0)
  }

  predicate CounterExact(cfg: Config, run: seq<Attempt>, now: int, k: Key) {
    CountAt(StoreAfter(cfg, run), k, now) == CountOf(Ideal(LogAfter(cfg, run), k, 1_000 * cfg.windowSeconds), now)
  }

  /** The keys of the clients numbered lo to hi - 1. */
  ghost function Names(lo: nat, hi: nat): (ks: set<Key>)
    requires lo <= hi
    ensures |ks| == hi - lo && forall k :: k in ks ==> k.ClientKey?
    ensures forall k :: k in ks ==> lo <= Code(k.client) < hi && k.client == Name(Code(k.client))
    decreases hi - lo
  {
    if lo == hi then {} else Names(lo, hi - 1) + {ClientKey(Name(hi - 1))}
  }

  /** An exact counter above zero is in the store. */
  lemma HoldsExact(cfg: Config, run: seq<Attempt>, log: seq<Event>, now: int, k: Key)
    requires CounterExact(cfg, run, now, k) && Records(cfg, run, log)
    requires CountOf(Ideal(log, k, Window(cfg)), now) > 0
    ensures k in StoreAfter(cfg, run).buckets
  {
    var window := 1_000 * cfg.windowSeconds;
    assert window == Window(cfg);
    var s, ideal := StoreAfter(cfg, run), Ideal(log, k, window);
    assert LogAfter(cfg, run) == log;
    assert CountAt(s, k, now) == CountOf(ideal, now);
  }

  /** A store cannot hold more live counters than its cap. */
  lemma TooManyLive(cfg: Config, run: seq<Attempt>, log: seq<Event>, m: nat, now: int, lo: nat, hi: nat)
    requires lo <= hi && Stage(cfg, run, log, m, now)
    requires forall i: nat :: lo <= i < hi ==> CountOf(Ideal(log, ClientKey(Name(i)), Window(cfg)), now) > 0
    requires var global := cfg.globalMaxFailures > 0 && CountOf(Ideal(log, GlobalKey, Window(cfg)), now) > 0;
      hi - lo + (if global then 1 else 0) > MEMORY_MAX_BUCKETS
    ensures !CountersExact(cfg)
  {
    EarlierIsOrdered(run, m, now);
    var s, names := StoreAfter(cfg, run), Names(lo, hi);
    NeverOutgrowsCap(cfg, run);
    if CountersExact(cfg) {
      forall k | k in names ensures k in s.buckets {
        assert InUse(cfg, run, now, k);
        HoldsExact(cfg, run, log, now, k);
      }
      if cfg.globalMaxFailures > 0 && CountOf(Ideal(log, GlobalKey, Window(cfg)), now) > 0 {
        assert InUse(cfg, run, now, GlobalKey);
        HoldsExact(cfg, run, log, now, GlobalKey);
        FewerKeys(names + {GlobalKey}, s.buckets.Keys);
      } else {
        FewerKeys(names, s.buckets.Keys);
      }
    }
  }

  /** Within the cap but above half of it: the run that reaches the bound has too many live counters at its end. */
  lemma StraddlingIsInexact(cfg: Config)
    requires cfg.maxFailures > 0 && 0 < cfg.globalMaxFailures <= MEMORY_MAX_BUCKETS && cfg.windowSeconds > 0
    requires 2 * cfg.globalMaxFailures > MEMORY_MAX_BUCKETS
    ensures !CountersExact(cfg)
  {
    var limit, window := cfg.globalMaxFailures, Window(cfg);
    StraddlingIsRecorded(cfg, limit, window);
    forall i: nat | 1 <= i < 2 * limit
      ensures CountOf(Ideal(StraddlingLog(limit, window), ClientKey(Name(i)), window), window) > 0
    {
      StraddlingOpens(limit, window, i);
    }
    StraddlingRoom(limit, window);
    TooManyLive(cfg, Straddling(limit, window), StraddlingLog(limit, window), 2 * limit, window, 1, 2 * limit);
  }

  lemma FirstOpensNone(window: int, i: nat)
    requires i > 0
    ensures Ideal([Failed(Name(0), 0)], ClientKey(Name(i)), window).None?
  {
    NamesDiffer(0, i);
    assert [] + [Failed(Name(0), 0)] == [Failed(Name(0), 0)];
    IdealAppend([], Failed(Name(0), 0), ClientKey(Name(i)), window);
  }

  lemma EarlyOpens(limit: nat, window: int, i: nat)
    requires limit > 0 && window > 1 && 1 <= i
    ensures Ideal(LogBeforeTheEnd(limit, window), ClientKey(Name(i)), window) ==
      if i < limit then Some(Bucket(1, 2 * window - 1)) else None
  {
    FirstOpensNone(window, i);
    BurstOpens([Failed(Name(0), 0)], 1, limit - 1, window - 1, window, i);
  }

  lemma StraddlingOpens(limit: nat, window: int, i: nat)
    requires limit > 0 && window > 1 && 1 <= i < 2 * limit
    ensures CountOf(Ideal(StraddlingLog(limit, window), ClientKey(Name(i)), window), window) > 0
  {
    EarlyOpens(limit, window, i);
    BurstOpens(LogBeforeTheEnd(limit, window), limit, limit, window, window, i);
  }

  // ------------------------------------------------------------------ without a global limit, or above the cap

  lemma IncrBelow(s: Store, k: Key, window: int, now: int, n: nat)
    requires GlobalKey in s.buckets ==> s.buckets[GlobalKey].count <= n
    ensures var t := AfterIncr(s, k, window, now);
      GlobalKey in t.buckets ==> t.buckets[GlobalKey].count <= if k == GlobalKey then n + 1 else n
  {}

  lemma AttemptBelow(s: Store, cfg: Config, a: Attempt, n: nat)
    requires GlobalKey in s.buckets ==> s.buckets[GlobalKey].count <= n
    ensures var t := AfterAttempt(s, cfg, a); GlobalKey in t.buckets ==> t.buckets[GlobalKey].count <= n + 1
  {
    var c := AfterCheck(s, cfg, a.client, a.at);
    IncrBelow(c, ClientKey(a.client), Window(cfg), a.at, n);
    IncrBelow(AfterIncr(c, ClientKey(a.client), Window(cfg), a.at), GlobalKey, Window(cfg), a.at, n);
  }

  /** The global bucket never counts more than there were attempts. */
  lemma {:induction false} GlobalBelow(cfg: Config, run: seq<Attempt>)
    ensures var s := StoreAfter(cfg, run); GlobalKey in s.buckets ==> s.buckets[GlobalKey].count <= |run|
  {
    if run != [] {
      GlobalBelow(cfg, run[..|run| - 1]);
      AttemptBelow(StoreAfter(cfg, run[..|run| - 1]), cfg, run[|run| - 1], |run| - 1);
    }
  }

  lemma OneMoreIsFree(cfg: Config, front: seq<Attempt>, n: nat, at: int)
    requires n > 0 && cfg.maxFailures > 0 && (cfg.globalMaxFailures == 0 || n <= cfg.globalMaxFailures)
    requires Earlier(front, n - 1, at) && |front| == n - 1 && Records(cfg, front, Burst([], 0, n - 1, at))
    ensures Records(cfg, front + [Attempt(Name(n - 1), at, Failure)], Burst([], 0, n, at))
  {
    GlobalBelow(cfg, front);
    NewcomerRecords(cfg, front, Burst([], 0, n - 1, at), n - 1, at);
  }

  lemma {:induction false} FreeBatchIsRecorded(cfg: Config, n: nat, at: int)
    requires cfg.maxFailures > 0 && (cfg.globalMaxFailures == 0 || n <= cfg.globalMaxFailures)
    ensures |Then([], 0, n, at)| == n && Records(cfg, Then([], 0, n, at), Burst([], 0, n, at))
  {
    if n > 0 {
      FreeBatchIsRecorded(cfg, n - 1, at);
      ThenIsEarlier([], 0, n - 1, at);
      OneMoreIsFree(cfg, Then([], 0, n - 1, at), n, at);
    }
  }

  lemma FreeBatchOpens(n: nat, window: int)
    requires window > 0
    ensures forall i: nat :: i < n ==> CountOf(Ideal(Burst([], 0, n, 0), ClientKey(Name(i)), window), 0) > 0
  {
    forall i: nat | i < n ensures CountOf(Ideal(Burst([], 0, n, 0), ClientKey(Name(i)), window), 0) > 0 {
      BurstOpens([], 0, n, 0, window, i);
    }
  }

  lemma FreeBatchIsInexact(cfg: Config, n: nat)
    requires cfg.maxFailures > 0 && cfg.windowSeconds > 0
    requires n > MEMORY_MAX_BUCKETS && (cfg.globalMaxFailures == 0 || n <= cfg.globalMaxFailures)
    ensures !CountersExact(cfg)
  {
    FreeBatchIsRecorded(cfg, n, 0);
    ThenIsEarlier([], 0, n, 0);
    FreeBatchOpens(n, Window(cfg));
    TooManyLive(cfg, Then([], 0, n, 0), Burst([], 0, n, 0), n, 0, 0, n);
  }

  /** The counters are exact on all runs exactly when there is room for twice the global limit. */
  lemma CountersExactIff(cfg: Config)
    requires cfg.maxFailures > 0 && cfg.windowSeconds > 0
    ensures CountersExact(cfg) <==> cfg.globalMaxFailures > 0 && 2 * cfg.globalMaxFailures <= 10_000
  {
    if cfg.globalMaxFailures == 0 || cfg.globalMaxFailures > MEMORY_MAX_BUCKETS {
      FreeBatchIsInexact(cfg, MEMORY_MAX_BUCKETS + 1);
    } else if 2 * cfg.globalMaxFailures > MEMORY_MAX_BUCKETS {
      StraddlingIsInexact(cfg);
    } else {
      forall run, now, k | InUse(cfg, run, now, k) ensures CounterExact(cfg, run, now, k) {
        CountersAreExact(cfg, run, now, k);
      }
    }
  }
}
