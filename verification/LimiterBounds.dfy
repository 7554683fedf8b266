/** The bounds the limiter promises over whole runs, and the settings under which it keeps them. */
module LimiterBounds {
  import opened Wrappers
  import opened ClientIds
  import opened Limiter
  import opened LimiterRuns
  import opened LimiterProofs

  // ------------------------------------------------------------------ the aggregate bound

  ghost predicate GlobalRun(s: Store, log: seq<Event>, cfg: Config, now: int) {
    && ValidStore(s) && |s.buckets| <= MEMORY_MAX_BUCKETS
    && GlobalInStep(s, Ideal(log, GlobalKey, Window(cfg)), now)
    && Admitted(log, cfg.globalMaxFailures, Window(cfg))
    && FailuresFrom(log, now + 1) == 0
  }

  lemma TimePasses(s: Store, log: seq<Event>, cfg: Config, now: int, later: int)
    requires GlobalRun(s, log, cfg, now) && now <= later
    ensures GlobalRun(s, log, cfg, later)
  {
    FromAntitone(log, now + 1, later + 1);
  }

  lemma AdmittedAppend(log: seq<Event>, e: Event, limit: nat, window: int)
    requires Admitted(log, limit, window)
    requires e.Failed? ==> AdmittedAfter(log, e.at, limit, window)
    ensures Admitted(log + [e], limit, window)
  {
    assert (log + [e])[..|log|] == log;
  }

  lemma IdealAppend(log: seq<Event>, e: Event, k: Key, window: int)
    ensures Ideal(log + [e], k, window) ==
      if CountsFor(e, k) then Some(Counted(Ideal(log, k, window), window, e.at))
      else if Resets(e, k) then None
      else Ideal(log, k, window)
  {
    assert (log + [e])[..|log|] == log;
  }

  lemma FailureStep(s: Store, log: seq<Event>, cfg: Config, client: string, now: int)
    requires 0 < cfg.globalMaxFailures <= MEMORY_MAX_BUCKETS && cfg.windowSeconds > 0
    requires GlobalRun(s, log, cfg, now)
    requires CountOf(View(s, GlobalKey, now), now) < cfg.globalMaxFailures
    requires GlobalKey in s.buckets ==> IsLive(s.buckets[GlobalKey], now)
    ensures GlobalRun(AfterFailure(s, cfg, client, now), log + [Failed(client, now)], cfg, now)
  {
    var ideal, e := Ideal(log, GlobalKey, Window(cfg)), Failed(client, now);
    ClientIncrInStep(s, ClientKey(client), ideal, Window(cfg), now);
    IncrKeeps(s, ClientKey(client), Window(cfg), now);
    var s1 := AfterIncr(s, ClientKey(client), Window(cfg), now);
    GlobalStaysLive(s, ClientKey(client), Window(cfg), now);
    GlobalIncrInStep(s1, ideal, Window(cfg), now);
    IncrKeeps(s1, GlobalKey, Window(cfg), now);
    IdealAppend(log, e, GlobalKey, Window(cfg));
    AdmittedAppend(log, e, cfg.globalMaxFailures, Window(cfg));
    FailuresFromAppend(log, e, now + 1);
  }

  lemma GlobalStaysLive(s: Store, k: Key, window: int, now: int)
    requires k != GlobalKey
    requires GlobalKey in s.buckets ==> IsLive(s.buckets[GlobalKey], now)
    ensures var t := AfterIncr(s, k, window, now);
      GlobalKey in t.buckets ==> IsLive(t.buckets[GlobalKey], now)
  {}

  /** After the check the global key is present only while its bucket is live. */
  lemma CheckStep(s: Store, cfg: Config, ideal: Option<Bucket>, client: string, now: int)
    requires GlobalInStep(s, ideal, now) && cfg.globalMaxFailures > 0
    ensures var c := AfterCheck(s, cfg, client, now);
      && GlobalInStep(c, ideal, now)
      && (GlobalKey in c.buckets ==> IsLive(c.buckets[GlobalKey], now))
      && forall k :: View(c, k, now) == View(s, k, now)
  {
    var s1 := AfterGet(s, ClientKey(client), now);
    GetInStep(s, ClientKey(client), ideal, now);
    GetInStep(s1, GlobalKey, ideal, now);
    forall k ensures View(AfterGet(s1, GlobalKey, now), k, now) == View(s, k, now) {
      GetView(s, ClientKey(client), k, now);
      GetView(s1, GlobalKey, k, now);
    }
  }

  lemma AttemptStep(s: Store, log: seq<Event>, cfg: Config, a: Attempt)
    requires 0 < cfg.globalMaxFailures <= MEMORY_MAX_BUCKETS && cfg.windowSeconds > 0
    requires GlobalRun(s, log, cfg, a.at)
    ensures GlobalRun(AfterAttempt(s, cfg, a), log + Recorded(s, cfg, a), cfg, a.at)
  {
    var ideal := Ideal(log, GlobalKey, Window(cfg));
    CheckStep(s, cfg, ideal, a.client, a.at);
    CheckKeeps(s, cfg, a.client, a.at);
    LimitedByViews(s, cfg, a.client, a.at);
    var c := AfterCheck(s, cfg, a.client, a.at);
    assert log + [] == log;
    if !Limited(s, cfg, a.client, a.at) {
      match a.outcome
      case Failure =>
        assert View(c, GlobalKey, a.at) == View(s, GlobalKey, a.at);
        FailureStep(c, log, cfg, a.client, a.at);
      case Success =>
        var e := Cleared(a.client);
        DeleteInStep(c, ClientKey(a.client), ideal, a.at);
        DeleteKeepsSize(c, ClientKey(a.client));
        IdealAppend(log, e, GlobalKey, Window(cfg));
        AdmittedAppend(log, e, cfg.globalMaxFailures, Window(cfg));
        FailuresFromAppend(log, e, a.at + 1);
      case Neither =>
    }
  }

  lemma {:induction false} RunsAreGlobal(cfg: Config, run: seq<Attempt>, now: int)
    requires 0 < cfg.globalMaxFailures <= MEMORY_MAX_BUCKETS && cfg.windowSeconds > 0
    requires Ordered(run) && (run != [] ==> run[|run| - 1].at <= now)
    ensures GlobalRun(StoreAfter(cfg, run), LogAfter(cfg, run), cfg, now)
  {
    if run != [] {
      var front, a := run[..|run| - 1], run[|run| - 1];
      RunsAreGlobal(cfg, front, a.at);
      AttemptStep(StoreAfter(cfg, front), LogAfter(cfg, front), cfg, a);
      TimePasses(StoreAfter(cfg, run), LogAfter(cfg, run), cfg, a.at, now);
    }
  }

  lemma RunsAreAdmitted(cfg: Config, run: seq<Attempt>)
    requires 0 < cfg.globalMaxFailures <= MEMORY_MAX_BUCKETS && cfg.windowSeconds > 0
    requires Ordered(run)
    ensures Admitted(LogAfter(cfg, run), cfg.globalMaxFailures, Window(cfg))
  {
    if run != [] { RunsAreGlobal(cfg, run, run[|run| - 1].at); }
  }

  lemma AdmittedPerSeconds(log: seq<Event>, limit: int, cfg: Config, lo: int)
    requires limit > 0 && cfg.windowSeconds > 0 && Admitted(log, limit, Window(cfg))
    ensures FailuresIn(log, lo, lo + 1_000 * cfg.windowSeconds) <= 2 * limit - 1
  {
    var window := 1_000 * cfg.windowSeconds;
    assert window == Window(cfg);
    AdmittedPerWindow(log, limit, window, lo);
  }

  /** Any half-open interval as long as the window admits fewer than 2 * limit failures, whoever fails. */
  lemma FailuresPerWindow(cfg: Config, run: seq<Attempt>, lo: int)
    requires 0 < cfg.globalMaxFailures <= MEMORY_MAX_BUCKETS && cfg.windowSeconds > 0
    requires Ordered(run)
    ensures FailuresIn(LogAfter(cfg, run), lo, lo + 1_000 * cfg.windowSeconds) <= 2 * cfg.globalMaxFailures - 1
  {
    RunsAreAdmitted(cfg, run);
    AdmittedPerSeconds(LogAfter(cfg, run), cfg.globalMaxFailures, cfg, lo);
  }

  // ------------------------------------------------------------------ above the cap there is no bound

  /** `n` attempts at one instant, each failing under a new client id. */
  ghost function Flood(n: nat): seq<Attempt> {
    if n == 0 then [] else Flood(n - 1) + [Attempt(Name(n - 1), 0, Failure)]
  }

  /** Every bucket was opened at instant 0, for clients numbered below n. */
  ghost predicate Flooded(s: Store, window: int, n: nat) {
    && ValidStore(s) && |s.buckets| <= MEMORY_MAX_BUCKETS
    && (forall k :: k in s.buckets ==> s.buckets[k].resetAt == window)
    && (forall k :: k in s.buckets && k.ClientKey? ==> Code(k.client) < n)
  }

  /** The global bucket never counts much more than the keys that came after it. */
  ghost predicate Drowned(s: Store, extra: nat) {
    GlobalKey in s.buckets ==> s.buckets[GlobalKey].count <= Later(s.order, GlobalKey) + extra
  }

  lemma {:induction false} LaterBelowSize(ks: seq<Key>, k: Key)
    requires k in ks
    ensures Later(ks, k) < |ks|
  {
    if ks[|ks| - 1] != k { LaterBelowSize(ks[..|ks| - 1], k); }
  }

  lemma {:induction false} WithoutFirst(ks: seq<Key>, k: Key)
    requires Distinct(ks) && k in ks && k != ks[0]
    ensures Later(Without(ks, ks[0]), k) == Later(ks, k)
  {
    var front, last := ks[..|ks| - 1], ks[|ks| - 1];
    var rest := Without(front, ks[0]);
    assert (rest + [last])[..|rest|] == rest;
    if last != k {
      WithoutFirst(front, k);
    }
  }

  lemma {:induction false} AllLive(ks: seq<Key>, m: map<Key, Bucket>, now: int)
    requires forall k :: k in ks ==> k in m && IsLive(m[k], now)
    ensures LiveOrder(ks, m, now) == ks
  {
    if ks != [] {
      AllLive(ks[..|ks| - 1], m, now);
    }
  }

  lemma FloodRoom(s: Store, window: int, n: nat, extra: nat)
    requires window > 0 && Flooded(s, window, n) && Drowned(s, extra)
    ensures Flooded(MakeRoom(s, 0), window, n) && Drowned(MakeRoom(s, 0), extra)
    ensures |MakeRoom(s, 0).buckets| < MEMORY_MAX_BUCKETS
  {
    MakeRoomKeeps(s, 0);
    AllLive(s.order, s.buckets, 0);
    assert LiveBuckets(s.buckets, 0) == s.buckets;
    if GlobalKey in s.buckets && s.order[0] != GlobalKey { WithoutFirst(s.order, GlobalKey); }
  }

  lemma FloodPut(m: Store, window: int, n: nat, client: string)
    requires Code(client) == n && Flooded(m, window, n) && Drowned(m, 1) && |m.buckets| < MEMORY_MAX_BUCKETS
    ensures var t := Put(m, ClientKey(client), Bucket(1, window)); Flooded(t, window, n + 1) && Drowned(t, 0)
  {
    var t := Put(m, ClientKey(client), Bucket(1, window));
    PutKeeps(m, ClientKey(client), Bucket(1, window));
    assert t.order[..|m.order|] == m.order;
    assert Flooded(t, window, n + 1);
  }

  lemma FloodClient(s: Store, window: int, n: nat, client: string)
    requires window > 0 && Code(client) == n && Flooded(s, window, n) && Drowned(s, 1)
    ensures var t := AfterIncr(s, ClientKey(client), window, 0); Flooded(t, window, n + 1) && Drowned(t, 0)
  {
    FloodRoom(s, window, n, 1);
    FloodPut(MakeRoom(s, 0), window, n, client);
    assert ClientKey(client) !in s.buckets;
  }

  lemma FloodCounts(s: Store, window: int, n: nat)
    requires window > 0 && Flooded(s, window, n) && Drowned(s, 0) && GlobalKey in s.buckets
    ensures var t := AfterIncr(s, GlobalKey, window, 0); Flooded(t, window, n) && Drowned(t, 1)
  {
    assert AfterIncr(s, GlobalKey, window, 0).order == s.order;
    assert AfterIncr(s, GlobalKey, window, 0).buckets.Keys == s.buckets.Keys;
  }

  lemma FloodReopens(s: Store, window: int, n: nat)
    requires window > 0 && Flooded(s, window, n) && Drowned(s, 0) && GlobalKey !in s.buckets
    ensures var t := AfterIncr(s, GlobalKey, window, 0); Flooded(t, window, n) && Drowned(t, 1)
  {
    FloodRoom(s, window, n, 0);
    PutKeeps(MakeRoom(s, 0), GlobalKey, Bucket(1, window));
  }

  lemma FloodGlobal(s: Store, window: int, n: nat)
    requires window > 0 && Flooded(s, window, n) && Drowned(s, 0)
    ensures var t := AfterIncr(s, GlobalKey, window, 0); Flooded(t, window, n) && Drowned(t, 1)
  {
    if GlobalKey in s.buckets {
      FloodCounts(s, window, n);
    } else {
      FloodReopens(s, window, n);
    }
  }

  lemma FloodAdmits(s: Store, cfg: Config, n: nat, client: string)
    requires cfg.maxFailures > 0 && cfg.windowSeconds > 0 && cfg.globalMaxFailures > MEMORY_MAX_BUCKETS
    requires Code(client) == n && Flooded(s, Window(cfg), n) && Drowned(s, 1)
    ensures !Limited(s, cfg, client, 0)
    ensures AfterCheck(s, cfg, client, 0) == s
  {
    if GlobalKey in s.buckets {
      LaterBelowSize(s.order, GlobalKey);
      OrderSize(s.order, s.buckets.Keys);
    }
  }

  /** After n attempts of the flood all n were admitted, and the global bucket still counts too few. */
  ghost predicate FloodReached(cfg: Config, n: nat) {
    && Flooded(StoreAfter(cfg, Flood(n)), Window(cfg), n) && Drowned(StoreAfter(cfg, Flood(n)), 1)
    && FailuresIn(LogAfter(cfg, Flood(n)), 0, Window(cfg)) == n
  }

  lemma {:induction false} FloodIsAdmitted(cfg: Config, n: nat)
    requires cfg.maxFailures > 0 && cfg.windowSeconds > 0 && cfg.globalMaxFailures > MEMORY_MAX_BUCKETS
    ensures FloodReached(cfg, n)
  {
    if n == 0 {
      FloodStarts(cfg);
    } else {
      FloodIsAdmitted(cfg, n - 1);
      FloodStep(cfg, n);
    }
  }

  lemma FloodStarts(cfg: Config)
    ensures FloodReached(cfg, 0)
  {}

  lemma FloodStep(cfg: Config, n: nat)
    requires n > 0
    requires cfg.maxFailures > 0 && cfg.windowSeconds > 0 && cfg.globalMaxFailures > MEMORY_MAX_BUCKETS
    requires FloodReached(cfg, n - 1)
    ensures FloodReached(cfg, n)
  {
    var s, client, log := StoreAfter(cfg, Flood(n - 1)), Name(n - 1), LogAfter(cfg, Flood(n - 1));
    var a := Attempt(client, 0, Failure);
    assert Flood(n)[..|Flood(n)| - 1] == Flood(n - 1);
    FloodAttempt(s, cfg, n - 1, client);
    assert StoreAfter(cfg, Flood(n)) == AfterAttempt(s, cfg, a);
    assert LogAfter(cfg, Flood(n)) == log + [Failed(client, 0)];
    assert (log + [Failed(client, 0)])[..|log|] == log;
  }

  lemma FloodAttempt(s: Store, cfg: Config, n: nat, client: string)
    requires cfg.maxFailures > 0 && cfg.windowSeconds > 0 && cfg.globalMaxFailures > MEMORY_MAX_BUCKETS
    requires Code(client) == n && Flooded(s, Window(cfg), n) && Drowned(s, 1)
    ensures var a := Attempt(client, 0, Failure);
      && Flooded(AfterAttempt(s, cfg, a), Window(cfg), n + 1) && Drowned(AfterAttempt(s, cfg, a), 1)
      && Recorded(s, cfg, a) == [Failed(client, 0)]
  {
    FloodAdmits(s, cfg, n, client);
    FloodClient(s, Window(cfg), n, client);
    FloodGlobal(AfterIncr(s, ClientKey(client), Window(cfg), 0), Window(cfg), n + 1);
  }

  lemma {:induction false} FloodIsInstant(n: nat)
    ensures forall a :: a in Flood(n) ==> a.at == 0
  {
    if n > 0 { FloodIsInstant(n - 1); }
  }

  ghost predicate WithinBound(cfg: Config, run: seq<Attempt>, lo: int) {
    FailuresIn(LogAfter(cfg, run), lo, lo + 1_000 * cfg.windowSeconds) <= 2 * cfg.globalMaxFailures - 1
  }

  ghost predicate KeepsWindowBound(cfg: Config) {
    forall run, lo :: Ordered(run) ==> WithinBound(cfg, run, lo)
  }

  /**
   * The aggregate bound holds exactly when the global limit does not exceed the cap on the map:
   * above it, a flood of new clients evicts the global bucket before it fills.
   */
  lemma WindowBoundIff(cfg: Config)
    requires cfg.maxFailures > 0 && cfg.windowSeconds > 0 && cfg.globalMaxFailures > 0
    ensures KeepsWindowBound(cfg) <==> cfg.globalMaxFailures <= 10_000
  {
    if cfg.globalMaxFailures <= MEMORY_MAX_BUCKETS {
      forall run, lo | Ordered(run) ensures WithinBound(cfg, run, lo) {
        FailuresPerWindow(cfg, run, lo);
      }
    } else {
      FloodBreaksBound(cfg);
    }
  }

  lemma FloodExceeds(cfg: Config)
    requires cfg.maxFailures > 0 && cfg.windowSeconds > 0 && cfg.globalMaxFailures > MEMORY_MAX_BUCKETS
    ensures !WithinBound(cfg, Flood(2 * cfg.globalMaxFailures), 0)
  {
    assert 1_000 * cfg.windowSeconds == Window(cfg);
    FloodIsAdmitted(cfg, 2 * cfg.globalMaxFailures);
    assert 0 + 1_000 * cfg.windowSeconds == Window(cfg);
  }

  lemma FloodIsOrdered(n: nat)
    ensures Ordered(Flood(n))
  {
    FloodIsInstant(n);
    assert forall i :: 0 <= i < |Flood(n)| ==> Flood(n)[i] in Flood(n);
  }

  lemma FloodBreaksBound(cfg: Config)
    requires cfg.maxFailures > 0 && cfg.windowSeconds > 0 && cfg.globalMaxFailures > MEMORY_MAX_BUCKETS
    ensures !KeepsWindowBound(cfg)
  {
    FloodIsOrdered(2 * cfg.globalMaxFailures);
    FloodExceeds(cfg);
  }
}
