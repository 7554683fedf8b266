/** The limiter holds what an unbounded set of fixed-window counters would hold, as far as its cap allows. */
module LimiterProofs {
  import opened Wrappers
  import opened Limiter
  import opened LimiterRuns

  /** The live bucket of a key, if any: the only part of the store the limiter acts on. */
  function View(s: Store, k: Key, now: int): Option<Bucket> { LiveOnly(Held(s, k), now) }

  function IdealView(log: seq<Event>, k: Key, window: int, now: int): Option<Bucket> {
    LiveOnly(Ideal(log, k, window), now)
  }

  // ------------------------------------------------------------------ positions in the insertion order

  /** How many keys were inserted after k. */
  function Later(ks: seq<Key>, k: Key): nat {
    if ks == [] || ks[|ks| - 1] == k then 0 else 1 + Later(ks[..|ks| - 1], k)
  }

  lemma {:induction false} WithoutLater(ks: seq<Key>, j: Key, k: Key)
    requires j != k
    ensures Later(Without(ks, j), k) <= Later(ks, k)
  {
    if ks != [] {
      var front, last := ks[..|ks| - 1], ks[|ks| - 1];
      WithoutLater(front, j, k);
      var rest := Without(front, j);
      assert (rest + [last])[..|rest|] == rest;
    }
  }

  lemma {:induction false} LiveOrderLater(ks: seq<Key>, m: map<Key, Bucket>, now: int, k: Key)
    requires k in m && IsLive(m[k], now)
    ensures Later(LiveOrder(ks, m, now), k) <= Later(ks, k)
  {
    if ks != [] {
      var front, last := ks[..|ks| - 1], ks[|ks| - 1];
      LiveOrderLater(front, m, now, k);
      var live := LiveOrder(front, m, now);
      assert (live + [last])[..|live|] == live;
    }
  }

  lemma {:induction false} FirstIsLatest(ks: seq<Key>)
    requires ks != [] && Distinct(ks)
    ensures Later(ks, ks[0]) == |ks| - 1
  {
    if |ks| > 1 {
      FirstIsLatest(ks[..|ks| - 1]);
    }
  }

  lemma {:induction false} OrderSize(ks: seq<Key>, m: set<Key>)
    requires Distinct(ks)
    requires forall k :: k in ks <==> k in m
    ensures |ks| == |m|
  {
    if ks == [] {
      assert m == {};
    } else {
      var front, last := ks[..|ks| - 1], ks[|ks| - 1];
      assert forall k :: k in ks <==> k in front || k == last;
      assert last !in front;
      OrderSize(front, m - {last});
    }
  }

  // ------------------------------------------------------------------ what one operation does to a view

  /** Making room does not cost k its place. */
  predicate Spared(s: Store, k: Key, now: int) {
    var p := Prune(s, now);
    |p.buckets| < MEMORY_MAX_BUCKETS || p.order == [] || p.order[0] != k
  }

  lemma GetView(s: Store, k: Key, j: Key, now: int)
    ensures View(AfterGet(s, k, now), j, now) == View(s, j, now)
  {}

  lemma RoomView(s: Store, k: Key, now: int)
    requires Spared(s, k, now)
    ensures View(MakeRoom(s, now), k, now) == View(s, k, now)
  {}

  lemma IncrView(s: Store, k: Key, j: Key, window: int, now: int)
    requires j != k && Spared(s, j, now)
    ensures View(AfterIncr(s, k, window, now), j, now) == View(s, j, now)
  {
    RoomView(s, j, now);
  }

  lemma IncrCounts(s: Store, k: Key, window: int, now: int)
    ensures Held(AfterIncr(s, k, window, now), k) == Some(Counted(View(s, k, now), window, now))
  {}

  /** The limiter decides on the live views of the client's key and of the global key. */
  lemma LimitedByViews(s: Store, cfg: Config, client: string, now: int)
    ensures Limited(s, cfg, client, now) <==>
      || CountOf(View(s, ClientKey(client), now), now) >= cfg.maxFailures
      || (cfg.globalMaxFailures > 0 && CountOf(View(s, GlobalKey, now), now) >= cfg.globalMaxFailures)
  {}

  // ------------------------------------------------------------------ the size cap

  lemma CheckKeeps(s: Store, cfg: Config, client: string, now: int)
    requires ValidStore(s) && |s.buckets| <= MEMORY_MAX_BUCKETS
    ensures var c := AfterCheck(s, cfg, client, now); ValidStore(c) && |c.buckets| <= MEMORY_MAX_BUCKETS
  {
    DeleteKeeps(s, ClientKey(client));
    DeleteKeeps(AfterGet(s, ClientKey(client), now), GlobalKey);
  }

  lemma AttemptKeeps(s: Store, cfg: Config, a: Attempt)
    requires ValidStore(s) && |s.buckets| <= MEMORY_MAX_BUCKETS
    ensures var t := AfterAttempt(s, cfg, a); ValidStore(t) && |t.buckets| <= MEMORY_MAX_BUCKETS
  {
    CheckKeeps(s, cfg, a.client, a.at);
    var c := AfterCheck(s, cfg, a.client, a.at);
    match a.outcome
    case Failure => FailureKeeps(c, cfg, a.client, a.at);
    case Success => DeleteKeepsSize(c, ClientKey(a.client));
    case Neither =>
  }

  lemma FailureKeeps(s: Store, cfg: Config, client: string, now: int)
    requires ValidStore(s) && |s.buckets| <= MEMORY_MAX_BUCKETS
    ensures var t := AfterFailure(s, cfg, client, now); ValidStore(t) && |t.buckets| <= MEMORY_MAX_BUCKETS
  {
    IncrKeeps(s, ClientKey(client), Window(cfg), now);
    IncrKeeps(AfterIncr(s, ClientKey(client), Window(cfg), now), GlobalKey, Window(cfg), now);
  }

  lemma DeleteKeepsSize(s: Store, k: Key)
    requires ValidStore(s)
    ensures ValidStore(Delete(s, k)) && |Delete(s, k).buckets| <= |s.buckets|
  {
    DeleteKeeps(s, k);
    if k !in s.buckets { assert s.buckets - {k} == s.buckets; }
  }

  /** On every run, whatever the clock does, the map never outgrows its cap. */
  lemma {:induction false} NeverOutgrowsCap(cfg: Config, run: seq<Attempt>)
    ensures ValidStore(StoreAfter(cfg, run))
    ensures |StoreAfter(cfg, run).buckets| <= 10_000
  {
    if run != [] {
      NeverOutgrowsCap(cfg, run[..|run| - 1]);
      AttemptKeeps(StoreAfter(cfg, run[..|run| - 1]), cfg, run[|run| - 1]);
    }
  }

  // ------------------------------------------------------------------ the global bucket is never evicted

  /** The global bucket is ideal, and fewer keys were inserted after it than failures counted in it. */
  ghost predicate GlobalInStep(s: Store, ideal: Option<Bucket>, now: int) {
    && View(s, GlobalKey, now) == LiveOnly(ideal, now)
    && RoomBehind(s, now, 0)
  }

  ghost predicate RoomBehind(s: Store, now: int, extra: nat) {
    var v := View(s, GlobalKey, now);
    v.Some? ==> Later(s.order, GlobalKey) < v.value.count + extra
  }

  lemma GetInStep(s: Store, k: Key, ideal: Option<Bucket>, now: int)
    requires GlobalInStep(s, ideal, now)
    ensures GlobalInStep(AfterGet(s, k, now), ideal, now)
  {
    GetView(s, k, GlobalKey, now);
    if k != GlobalKey { WithoutLater(s.order, k, GlobalKey); }
  }

  lemma DeleteInStep(s: Store, k: Key, ideal: Option<Bucket>, now: int)
    requires GlobalInStep(s, ideal, now) && k != GlobalKey
    ensures GlobalInStep(Delete(s, k), ideal, now)
  {
    WithoutLater(s.order, k, GlobalKey);
  }

  lemma GlobalIsSpared(s: Store, now: int)
    requires ValidStore(s) && RoomBehind(s, now, 0)
    requires CountOf(View(s, GlobalKey, now), now) < MEMORY_MAX_BUCKETS
    ensures Spared(s, GlobalKey, now)
  {
    var p := Prune(s, now);
    if p.order != [] && p.order[0] == GlobalKey {
      PruneKeeps(s, now);
      LiveOrderLater(s.order, s.buckets, now, GlobalKey);
      FirstIsLatest(p.order);
      OrderSize(p.order, p.buckets.Keys);
    }
  }

  lemma RoomKeepsBehind(s: Store, now: int)
    requires RoomBehind(s, now, 0) && Spared(s, GlobalKey, now)
    ensures RoomBehind(MakeRoom(s, now), now, 0)
  {
    RoomView(s, GlobalKey, now);
    if View(s, GlobalKey, now).Some? {
      LiveOrderLater(s.order, s.buckets, now, GlobalKey);
      var p := Prune(s, now);
      if p.order != [] && p.order[0] != GlobalKey { WithoutLater(p.order, p.order[0], GlobalKey); }
    }
  }

  lemma ClientIncrInStep(s: Store, k: Key, ideal: Option<Bucket>, window: int, now: int)
    requires k != GlobalKey && ValidStore(s) && GlobalInStep(s, ideal, now)
    requires CountOf(View(s, GlobalKey, now), now) < MEMORY_MAX_BUCKETS
    ensures View(AfterIncr(s, k, window, now), GlobalKey, now) == LiveOnly(ideal, now)
    ensures RoomBehind(AfterIncr(s, k, window, now), now, 1)
  {
    GlobalIsSpared(s, now);
    IncrView(s, k, GlobalKey, window, now);
    RoomView(s, GlobalKey, now);
    RoomKeepsBehind(s, now);
    var m := MakeRoom(s, now).order;
    assert (m + [k])[..|m|] == m;
  }

  /** Once an expired global bucket has been dropped, counting keeps step with the ideal counter. */
  lemma GlobalIncrInStep(s: Store, ideal: Option<Bucket>, window: int, now: int)
    requires window > 0 && ValidStore(s) && |s.buckets| <= MEMORY_MAX_BUCKETS
    requires View(s, GlobalKey, now) == LiveOnly(ideal, now) && RoomBehind(s, now, 1)
    requires GlobalKey in s.buckets ==> IsLive(s.buckets[GlobalKey], now)
    ensures GlobalInStep(AfterIncr(s, GlobalKey, window, now), Some(Counted(ideal, window, now)), now)
  {
    IncrCounts(s, GlobalKey, window, now);
    if GlobalKey !in s.buckets {
      MakeRoomKeeps(s, now);
      assert GlobalKey !in MakeRoom(s, now).buckets;
    }
  }
}
