/** With room for twice the global limit the limiter is exact: it decides as unbounded counters would. */
module LimiterExact {
  import opened Wrappers
  import opened Limiter
  import opened LimiterRuns
  import opened LimiterProofs
  import opened LimiterBounds

  ghost predicate InStep(s: Store, log: seq<Event>, window: int, now: int) {
    forall k :: View(s, k, now) == IdealView(log, k, window, now)
  }

  // ------------------------------------------------------------------ how many buckets can be live

  /** The keys of the clients that failed at or after lo. */
  function Failing(log: seq<Event>, lo: int): set<Key> {
    if log == [] then {}
    else
      var e := log[|log| - 1];
      Failing(log[..|log| - 1], lo) + if e.Failed? && e.at >= lo then {ClientKey(e.client)} else {}
  }

  lemma {:induction false} FailingSize(log: seq<Event>, lo: int)
    ensures |Failing(log, lo)| <= FailuresFrom(log, lo)
  {
    if log != [] { FailingSize(log[..|log| - 1], lo); }
  }

  /** A client's ideal window was opened by one of its failures. */
  lemma {:induction false} LiveIsFailing(log: seq<Event>, k: Key, window: int, lo: int)
    requires k != GlobalKey && Ideal(log, k, window).Some?
    requires Ideal(log, k, window).value.resetAt >= lo + window
    ensures k in Failing(log, lo)
  {
    var front, e := log[..|log| - 1], log[|log| - 1];
    var before := Ideal(front, k, window);
    var opens := CountsFor(e, k) && !(before.Some? && IsLive(before.value, e.at));
    if !opens {
      LiveIsFailing(front, k, window, lo);
    }
  }

  /** No more than the failing clients, and the global key, survive a pruning. */
  lemma PrunedSize(s: Store, log: seq<Event>, window: int, now: int)
    requires forall k :: k != GlobalKey && View(s, k, now).Some? ==> k in Failing(log, now - window + 1)
    ensures |Prune(s, now).buckets| <=
      FailuresFrom(log, now - window + 1) + if View(s, GlobalKey, now).Some? then 1 else 0
  {
    var keys, failing := Prune(s, now).buckets.Keys, Failing(log, now - window + 1);
    forall k | k in keys ensures k in failing || (k == GlobalKey && View(s, GlobalKey, now).Some?) {
      assert View(s, k, now).Some?;
    }
    FailingSize(log, now - window + 1);
    if View(s, GlobalKey, now).Some? {
      FewerKeys(keys, failing + {GlobalKey});
    } else {
      FewerKeys(keys, failing);
    }
  }

  lemma AllSpared(s: Store, log: seq<Event>, window: int, now: int)
    requires forall k :: k != GlobalKey && View(s, k, now).Some? ==> k in Failing(log, now - window + 1)
    requires FailuresFrom(log, now - window + 1) + (if View(s, GlobalKey, now).Some? then 1 else 0) < MEMORY_MAX_BUCKETS
    ensures forall k :: Spared(s, k, now)
  {
    PrunedSize(s, log, window, now);
  }

  lemma ViewsAreFailing(s: Store, log: seq<Event>, window: int, now: int)
    requires InStep(s, log, window, now)
    ensures forall k :: k != GlobalKey && View(s, k, now).Some? ==> k in Failing(log, now - window + 1)
  {
    forall k | k != GlobalKey && View(s, k, now).Some? ensures k in Failing(log, now - window + 1) {
      assert View(s, k, now) == IdealView(log, k, window, now);
      LiveIsFailing(log, k, window, now - window + 1);
    }
  }

  /** Before an admitted failure fewer than 2 * limit - 1 failures are still inside the window. */
  lemma RecentFailures(log: seq<Event>, limit: nat, window: int, e: Event)
    requires limit > 0 && window > 0 && e.Failed?
    requires Admitted(log, limit, window) && AdmittedAfter(log, e.at, limit, window)
    ensures FailuresFrom(log, e.at - window + 1) <= 2 * limit - 2
  {
    AdmittedAppend(log, e, limit, window);
    AdmittedIsTracked(log + [e], limit, window);
    assert BoundedAt(log + [e], limit, window, e.at - window + 1);
    FailuresFromAppend(log, e, e.at - window + 1);
    FailuresFromAppend(log, e, e.at + 1);
  }

  // ------------------------------------------------------------------ one step

  lemma CountedLive(b: Option<Bucket>, window: int, now: int)
    requires window > 0
    ensures Counted(LiveOnly(b, now), window, now) == Counted(b, window, now)
    ensures IsLive(Counted(b, window, now), now)
  {}

  lemma FailureInStep(s: Store, log: seq<Event>, cfg: Config, client: string, now: int)
    requires cfg.globalMaxFailures > 0 && 2 * cfg.globalMaxFailures <= MEMORY_MAX_BUCKETS && cfg.windowSeconds > 0
    requires InStep(s, log, Window(cfg), now)
    requires Admitted(log, cfg.globalMaxFailures, Window(cfg))
    requires AdmittedAfter(log, now, cfg.globalMaxFailures, Window(cfg))
    ensures InStep(AfterFailure(s, cfg, client, now), log + [Failed(client, now)], Window(cfg), now)
  {
    var window, e, c := Window(cfg), Failed(client, now), ClientKey(client);
    RecentFailures(log, cfg.globalMaxFailures, window, e);
    ViewsAreFailing(s, log, window, now);
    AllSpared(s, log, window, now);
    var s1 := AfterIncr(s, c, window, now);
    IncrCounts(s, c, window, now);
    FirstIncr(s, log, window, client, now);
    IncrCounts(s1, GlobalKey, window, now);
    var t := AfterIncr(s1, GlobalKey, window, now);
    forall k ensures View(t, k, now) == IdealView(log + [e], k, window, now) {
      IdealAppend(log, e, k, window);
      CountedLive(Ideal(log, k, window), window, now);
      assert View(s, k, now) == IdealView(log, k, window, now);
      if k != c { IncrView(s, c, k, window, now); }
      if k != GlobalKey {
        SecondIncr(s1, log, cfg, client, now, k);
      }
    }
  }

  /** Counting for the client leaves it and the clients that failed before as the only live ones. */
  lemma FirstIncr(s: Store, log: seq<Event>, window: int, client: string, now: int)
    requires window > 0 && forall k :: Spared(s, k, now)
    requires forall k :: k != GlobalKey && View(s, k, now).Some? ==> k in Failing(log, now - window + 1)
    ensures var s1, log1 := AfterIncr(s, ClientKey(client), window, now), log + [Failed(client, now)];
      forall k :: k != GlobalKey && View(s1, k, now).Some? ==> k in Failing(log1, now - window + 1)
  {
    var c, log1 := ClientKey(client), log + [Failed(client, now)];
    var s1 := AfterIncr(s, c, window, now);
    assert log1[..|log1| - 1] == log;
    forall k | k != GlobalKey && View(s1, k, now).Some? ensures k in Failing(log1, now - window + 1) {
      if k != c { IncrView(s, c, k, window, now); }
    }
  }

  lemma SecondIncr(s1: Store, log: seq<Event>, cfg: Config, client: string, now: int, k: Key)
    requires cfg.globalMaxFailures > 0 && 2 * cfg.globalMaxFailures <= MEMORY_MAX_BUCKETS && cfg.windowSeconds > 0
    requires FailuresFrom(log, now - Window(cfg) + 1) <= 2 * cfg.globalMaxFailures - 2
    requires var log1 := log + [Failed(client, now)];
      forall j :: j != GlobalKey && View(s1, j, now).Some? ==> j in Failing(log1, now - Window(cfg) + 1)
    requires k != GlobalKey
    ensures View(AfterIncr(s1, GlobalKey, Window(cfg), now), k, now) == View(s1, k, now)
  {
    if View(s1, GlobalKey, now).None? {
      FailuresFromAppend(log, Failed(client, now), now - Window(cfg) + 1);
      AllSpared(s1, log + [Failed(client, now)], Window(cfg), now);
      IncrView(s1, GlobalKey, k, Window(cfg), now);
    }
  }

  lemma SuccessInStep(s: Store, log: seq<Event>, window: int, client: string, now: int)
    requires InStep(s, log, window, now)
    ensures InStep(Delete(s, ClientKey(client)), log + [Cleared(client)], window, now)
  {
    var t, e := Delete(s, ClientKey(client)), Cleared(client);
    forall k ensures View(t, k, now) == IdealView(log + [e], k, window, now) {
      IdealAppend(log, e, k, window);
      assert View(s, k, now) == IdealView(log, k, window, now);
    }
  }

  lemma AttemptInStep(s: Store, log: seq<Event>, cfg: Config, a: Attempt)
    requires cfg.globalMaxFailures > 0 && 2 * cfg.globalMaxFailures <= MEMORY_MAX_BUCKETS && cfg.windowSeconds > 0
    requires GlobalRun(s, log, cfg, a.at) && InStep(s, log, Window(cfg), a.at)
    ensures InStep(AfterAttempt(s, cfg, a), log + Recorded(s, cfg, a), Window(cfg), a.at)
  {
    var c := AfterCheck(s, cfg, a.client, a.at);
    CheckStep(s, cfg, Ideal(log, GlobalKey, Window(cfg)), a.client, a.at);
    assert InStep(c, log, Window(cfg), a.at);
    LimitedByViews(s, cfg, a.client, a.at);
    assert log + [] == log;
    if !Limited(s, cfg, a.client, a.at) {
      match a.outcome
      case Failure =>
        assert View(s, GlobalKey, a.at) == IdealView(log, GlobalKey, Window(cfg), a.at);
        FailureInStep(c, log, cfg, a.client, a.at);
      case Success => SuccessInStep(c, log, Window(cfg), a.client, a.at);
      case Neither =>
    }
  }

  // ------------------------------------------------------------------ whole runs

  lemma {:induction false} RunsInStep(cfg: Config, run: seq<Attempt>, now: int)
    requires cfg.globalMaxFailures > 0 && 2 * cfg.globalMaxFailures <= MEMORY_MAX_BUCKETS && cfg.windowSeconds > 0
    requires Ordered(run) && (run != [] ==> run[|run| - 1].at <= now)
    ensures InStep(StoreAfter(cfg, run), LogAfter(cfg, run), Window(cfg), now)
  {
    if run != [] {
      var front, a := run[..|run| - 1], run[|run| - 1];
      RunsInStep(cfg, front, a.at);
      RunsAreGlobal(cfg, front, a.at);
      AttemptInStep(StoreAfter(cfg, front), LogAfter(cfg, front), cfg, a);
      LaterInStep(StoreAfter(cfg, run), LogAfter(cfg, run), Window(cfg), a.at, now);
    }
  }

  lemma LaterInStep(s: Store, log: seq<Event>, window: int, now: int, later: int)
    requires InStep(s, log, window, now) && now <= later
    ensures InStep(s, log, window, later)
  {
    forall k ensures View(s, k, later) == IdealView(log, k, window, later) {
      assert View(s, k, now) == IdealView(log, k, window, now);
    }
  }

  lemma InStepCounts(s: Store, log: seq<Event>, window: int, now: int, k: Key)
    requires InStep(s, log, window, now)
    ensures CountAt(s, k, now) == CountOf(Ideal(log, k, window), now)
  {
    assert View(s, k, now) == IdealView(log, k, window, now);
  }

  /**
   * Every counter the limiter reads is the true number of failures in the key's current window since
   * its last reset.
   */
  lemma CountersAreExact(cfg: Config, run: seq<Attempt>, now: int, k: Key)
    requires cfg.globalMaxFailures > 0 && 2 * cfg.globalMaxFailures <= MEMORY_MAX_BUCKETS && cfg.windowSeconds > 0
    requires Ordered(run) && (run != [] ==> run[|run| - 1].at <= now)
    ensures CountAt(StoreAfter(cfg, run), k, now)
      == CountOf(Ideal(LogAfter(cfg, run), k, 1_000 * cfg.windowSeconds), now)
  {
    var window := 1_000 * cfg.windowSeconds;
    assert window == Window(cfg);
    RunsInStep(cfg, run, now);
    InStepCounts(StoreAfter(cfg, run), LogAfter(cfg, run), window, now, k);
  }

  /** An attempt is refused exactly when unbounded counters would refuse it. */
  lemma RefusalsAreExact(cfg: Config, run: seq<Attempt>, next: Attempt)
    requires cfg.globalMaxFailures > 0 && 2 * cfg.globalMaxFailures <= MEMORY_MAX_BUCKETS && cfg.windowSeconds > 0
    requires Ordered(run + [next])
    ensures Limited(StoreAfter(cfg, run), cfg, next.client, next.at) <==>
      || CountOf(Ideal(LogAfter(cfg, run), ClientKey(next.client), 1_000 * cfg.windowSeconds), next.at)
         >= cfg.maxFailures
      || CountOf(Ideal(LogAfter(cfg, run), GlobalKey, 1_000 * cfg.windowSeconds), next.at) >= cfg.globalMaxFailures
  {
    var all := run + [next];
    assert forall i :: 0 <= i < |run| ==> all[i] == run[i];
    assert run != [] ==> all[|run| - 1].at <= all[|run|].at;
    CountersAreExact(cfg, run, next.at, ClientKey(next.client));
    CountersAreExact(cfg, run, next.at, GlobalKey);
  }

  // ------------------------------------------------------------------ the bound for one client

  /** The failures of one client since its last success. */
  function SinceReset(log: seq<Event>, client: string): seq<Event> {
    if log == [] then []
    else
      var front, e := SinceReset(log[..|log| - 1], client), log[|log| - 1];
      if Resets(e, ClientKey(client)) then []
      else if CountsFor(e, ClientKey(client)) then front + [e]
      else front
  }

  lemma SinceResetAppend(log: seq<Event>, e: Event, client: string)
    ensures SinceReset(log + [e], client) ==
      if Resets(e, ClientKey(client)) then []
      else if CountsFor(e, ClientKey(client)) then SinceReset(log, client) + [e]
      else SinceReset(log, client)
  {
    assert (log + [e])[..|log|] == log;
  }

  /** The ideal counter of a client counts these failures, as the global one would count them on their own. */
  lemma {:induction false} IdealSinceReset(log: seq<Event>, client: string, window: int)
    ensures Ideal(log, ClientKey(client), window) == Ideal(SinceReset(log, client), GlobalKey, window)
  {
    if log != [] {
      var front, e := log[..|log| - 1], log[|log| - 1];
      IdealSinceReset(front, client, window);
      IdealAppend(SinceReset(front, client), e, GlobalKey, window);
    }
  }

  lemma {:induction false} SinceResetIsPart(log: seq<Event>, client: string, lo: int)
    ensures FailuresFrom(SinceReset(log, client), lo) <= FailuresFrom(log, lo)
  {
    if log != [] {
      var front, e := log[..|log| - 1], log[|log| - 1];
      SinceResetIsPart(front, client, lo);
      FailuresFromAppend(SinceReset(front, client), e, lo);
    }
  }

  /** One more failure of the client, let in by its own exact counter. */
  lemma ClientFailureStep(log: seq<Event>, client: string, at: int, limit: nat, window: int)
    requires Admitted(SinceReset(log, client), limit, window)
    requires CountOf(Ideal(log, ClientKey(client), window), at) < limit && FailuresFrom(log, at + 1) == 0
    ensures Admitted(SinceReset(log + [Failed(client, at)], client), limit, window)
  {
    IdealSinceReset(log, client, window);
    SinceResetIsPart(log, client, at + 1);
    SinceResetAppend(log, Failed(client, at), client);
    AdmittedAppend(SinceReset(log, client), Failed(client, at), limit, window);
  }

  lemma ClientAttemptStep(s: Store, log: seq<Event>, cfg: Config, a: Attempt, client: string)
    requires Admitted(SinceReset(log, client), cfg.maxFailures, Window(cfg))
    requires InStep(s, log, Window(cfg), a.at) && FailuresFrom(log, a.at + 1) == 0
    ensures Admitted(SinceReset(log + Recorded(s, cfg, a), client), cfg.maxFailures, Window(cfg))
  {
    assert log + [] == log;
    if !Limited(s, cfg, a.client, a.at) {
      match a.outcome
      case Failure =>
        SinceResetAppend(log, Failed(a.client, a.at), client);
        if a.client == client {
          LimitedByViews(s, cfg, client, a.at);
          assert View(s, ClientKey(client), a.at) == IdealView(log, ClientKey(client), Window(cfg), a.at);
          ClientFailureStep(log, client, a.at, cfg.maxFailures, Window(cfg));
        }
      case Success => SinceResetAppend(log, Cleared(a.client), client);
      case Neither =>
    }
  }

  lemma {:induction false} ClientIsAdmitted(cfg: Config, run: seq<Attempt>, client: string)
    requires cfg.globalMaxFailures > 0 && 2 * cfg.globalMaxFailures <= MEMORY_MAX_BUCKETS && cfg.windowSeconds > 0
    requires Ordered(run)
    ensures Admitted(SinceReset(LogAfter(cfg, run), client), cfg.maxFailures, Window(cfg))
  {
    if run != [] {
      var front, a := run[..|run| - 1], run[|run| - 1];
      ClientIsAdmitted(cfg, front, client);
      RunsInStep(cfg, front, a.at);
      RunsAreGlobal(cfg, front, a.at);
      ClientAttemptStep(StoreAfter(cfg, front), LogAfter(cfg, front), cfg, a, client);
    }
  }

  /** When the counters are exact, no client fails 2 * limit times within a window before its next success. */
  lemma ClientFailuresPerWindow(cfg: Config, run: seq<Attempt>, client: string, lo: int)
    requires cfg.globalMaxFailures > 0 && 2 * cfg.globalMaxFailures <= MEMORY_MAX_BUCKETS && cfg.windowSeconds > 0
    requires cfg.maxFailures > 0 && Ordered(run)
    ensures FailuresIn(SinceReset(LogAfter(cfg, run), client), lo, lo + 1_000 * cfg.windowSeconds)
      <= 2 * cfg.maxFailures - 1
  {
    ClientIsAdmitted(cfg, run, client);
    AdmittedPerSeconds(SinceReset(LogAfter(cfg, run), client), cfg.maxFailures, cfg, lo);
  }
}
