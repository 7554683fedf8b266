/** How long a counter lasts: windowSeconds of 1000 ms each, from the failure that opened it. */
module LimiterWindows {
  import opened Wrappers
  import opened Limiter
  import opened LimiterRuns
  import opened LimiterProofs

  /** The failure at position i opened this bucket of k. */
  predicate OpenedBy(cfg: Config, run: seq<Attempt>, k: Key, b: Bucket, i: nat) {
    && i < |run| && run[i].outcome.Failure? && (k == GlobalKey || k == ClientKey(run[i].client))
    && b.resetAt == run[i].at + 1_000 * cfg.windowSeconds && b.count >= 1
  }

  ghost predicate IsOpened(cfg: Config, run: seq<Attempt>, k: Key, b: Bucket) {
    exists i: nat :: OpenedBy(cfg, run, k, b, i)
  }

  ghost predicate AllOpened(cfg: Config, run: seq<Attempt>, s: Store) {
    forall k :: k in s.buckets ==> IsOpened(cfg, run, k, s.buckets[k])
  }

  lemma OpenedStays(cfg: Config, run: seq<Attempt>, s: Store, a: Attempt)
    requires AllOpened(cfg, run, s)
    ensures AllOpened(cfg, run + [a], s)
  {
    forall k | k in s.buckets ensures IsOpened(cfg, run + [a], k, s.buckets[k]) {
      var i: nat :| OpenedBy(cfg, run, k, s.buckets[k], i);
      assert OpenedBy(cfg, run + [a], k, s.buckets[k], i);
    }
  }

  /** Counting for k at the last attempt of a run, a failure of k. */
  lemma IncrIsOpened(cfg: Config, run: seq<Attempt>, s: Store, k: Key)
    requires AllOpened(cfg, run, s) && run != []
    requires run[|run| - 1].outcome.Failure? && (k == GlobalKey || k == ClientKey(run[|run| - 1].client))
    ensures AllOpened(cfg, run, AfterIncr(s, k, Window(cfg), run[|run| - 1].at))
  {
    var i, now := |run| - 1, run[|run| - 1].at;
    var t := AfterIncr(s, k, Window(cfg), now);
    forall j | j in t.buckets ensures IsOpened(cfg, run, j, t.buckets[j]) {
      if j == k {
        if k in s.buckets && IsLive(s.buckets[k], now) {
          var n: nat :| OpenedBy(cfg, run, k, s.buckets[k], n);
          assert OpenedBy(cfg, run, k, t.buckets[k], n);
        } else {
          assert OpenedBy(cfg, run, k, t.buckets[k], i);
        }
      } else {
        assert j in s.buckets && t.buckets[j] == s.buckets[j];
      }
    }
  }

  lemma AttemptIsOpened(cfg: Config, run: seq<Attempt>, s: Store, a: Attempt)
    requires AllOpened(cfg, run, s)
    ensures AllOpened(cfg, run + [a], AfterAttempt(s, cfg, a))
  {
    var all, checked := run + [a], AfterCheck(s, cfg, a.client, a.at);
    OpenedStays(cfg, run, s, a);
    assert AllOpened(cfg, all, checked);
    if !Limited(s, cfg, a.client, a.at) && a.outcome.Failure? {
      IncrIsOpened(cfg, all, checked, ClientKey(a.client));
      if cfg.globalMaxFailures > 0 {
        IncrIsOpened(cfg, all, AfterIncr(checked, ClientKey(a.client), Window(cfg), a.at), GlobalKey);
      }
    }
  }

  lemma {:induction false} RunsAreOpened(cfg: Config, run: seq<Attempt>)
    ensures AllOpened(cfg, run, StoreAfter(cfg, run))
  {
    if run != [] {
      RunsAreOpened(cfg, run[..|run| - 1]);
      AttemptIsOpened(cfg, run[..|run| - 1], StoreAfter(cfg, run[..|run| - 1]), run[|run| - 1]);
      assert run[..|run| - 1] + [run[|run| - 1]] == run;
    }
  }

  /**
   * On every run, whatever the clock: a counter that the store holds was opened by a failure of its key, and it
   * counts at exactly the times before windowSeconds of 1000 ms have passed since then.
   */
  lemma CounterLasts(cfg: Config, run: seq<Attempt>, k: Key) returns (i: nat)
    requires k in StoreAfter(cfg, run).buckets
    ensures i < |run| && run[i].outcome.Failure? && (k == GlobalKey || k == ClientKey(run[i].client))
    ensures forall now :: CountAt(StoreAfter(cfg, run), k, now) > 0 <==> now < run[i].at + 1_000 * cfg.windowSeconds
  {
    RunsAreOpened(cfg, run);
    i :| OpenedBy(cfg, run, k, StoreAfter(cfg, run).buckets[k], i);
  }

  /** A first failure that is let in counts once for its client, for as long and no longer. */
  lemma FailureLasts(cfg: Config, run: seq<Attempt>, a: Attempt, later: int)
    requires a.outcome.Failure? && !Limited(StoreAfter(cfg, run), cfg, a.client, a.at)
    requires CountAt(StoreAfter(cfg, run), ClientKey(a.client), a.at) == 0 < cfg.windowSeconds
    requires ClientKey(a.client) in StoreAfter(cfg, run + [a]).buckets
    ensures CountAt(StoreAfter(cfg, run + [a]), ClientKey(a.client), later)
      == if later < a.at + 1_000 * cfg.windowSeconds then 1 else 0
  {
    var s, k := StoreAfter(cfg, run), ClientKey(a.client);
    assert (run + [a])[..|run|] == run;
    RunsAreOpened(cfg, run);
    assert k in s.buckets ==> IsOpened(cfg, run, k, s.buckets[k]);
    IncrCounts(AfterCheck(s, cfg, a.client, a.at), k, Window(cfg), a.at);
  }

  /** The advice to retry after windowSeconds is enough: if nothing happens until then the client is let in. */
  lemma RetryIsLetIn(cfg: Config, run: seq<Attempt>, client: string, now: int, later: int)
    requires cfg.maxFailures > 0 && Ordered(run) && (run != [] ==> run[|run| - 1].at <= now)
    requires later >= now + 1_000 * cfg.windowSeconds
    ensures !Limited(StoreAfter(cfg, run), cfg, client, later)
  {
    var s := StoreAfter(cfg, run);
    if ClientKey(client) in s.buckets { var i := CounterLasts(cfg, run, ClientKey(client)); }
    if GlobalKey in s.buckets { var i := CounterLasts(cfg, run, GlobalKey); }
  }
}
