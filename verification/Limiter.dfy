/** The in-process store and the limiter of apps/web/src/lib/login-rate-limit.ts. */
module Limiter {
  import opened Wrappers

  const MEMORY_MAX_BUCKETS: nat := 10_000

  /** A client key is the hash of the client id, kept opaque. */
  datatype Key = GlobalKey | ClientKey(client: string)

  datatype Bucket = Bucket(count: nat, resetAt: int)

  /** A JavaScript Map: the entries and the order in which their keys were inserted. */
  datatype Store = Store(order: seq<Key>, buckets: map<Key, Bucket>)

  /** `globalMaxFailures` 0 disables the global bucket; clocks are in milliseconds. */
  datatype Config = Config(maxFailures: nat, globalMaxFailures: nat, windowSeconds: nat)

  function Window(cfg: Config): int { cfg.windowSeconds * 1_000 }

  predicate IsLive(b: Bucket, now: int) { b.resetAt > now }

  predicate Distinct(ks: seq<Key>) {
    ks == [] || (Distinct(ks[..|ks| - 1]) && ks[|ks| - 1] !in ks[..|ks| - 1])
  }

  lemma DistinctAppend(ks: seq<Key>, k: Key)
    requires Distinct(ks) && k !in ks
    ensures Distinct(ks + [k])
  {
    assert (ks + [k])[..|ks|] == ks;
  }

  lemma {:induction false} DistinctAt(ks: seq<Key>, i: nat, j: nat)
    requires Distinct(ks) && i < j < |ks|
    ensures ks[i] != ks[j]
  {
    if j < |ks| - 1 {
      DistinctAt(ks[..|ks| - 1], i, j);
    }
  }

  ghost predicate ValidStore(s: Store) {
    Distinct(s.order) && forall k :: k in s.order <==> k in s.buckets
  }

  // ------------------------------------------------------------------ the operations on a Map

  function Without(ks: seq<Key>, k: Key): seq<Key> {
    if ks == [] then []
    else
      var front, last := Without(ks[..|ks| - 1], k), ks[|ks| - 1];
      if last == k then front else front + [last]
  }

  function Delete(s: Store, k: Key): Store {
    Store(Without(s.order, k), s.buckets - {k})
  }

  /** `Map.set` keeps the position of a key that is already there. */
  function Put(s: Store, k: Key, b: Bucket): Store {
    Store(if k in s.buckets then s.order else s.order + [k], s.buckets[k := b])
  }

  function LiveOrder(ks: seq<Key>, m: map<Key, Bucket>, now: int): seq<Key> {
    if ks == [] then []
    else
      var front, k := LiveOrder(ks[..|ks| - 1], m, now), ks[|ks| - 1];
      if k in m && IsLive(m[k], now) then front + [k] else front
  }

  function LiveBuckets(m: map<Key, Bucket>, now: int): (live: map<Key, Bucket>)
    ensures forall k :: k in live <==> k in m && IsLive(m[k], now)
    ensures forall k :: k in live ==> live[k] == m[k]
    ensures |live| <= |m|
  {
    var live := map k | k in m && IsLive(m[k], now) :: m[k];
    FewerKeys(live.Keys, m.Keys);
    live
  }

  lemma FewerKeys(a: set<Key>, b: set<Key>)
    requires a <= b
    ensures |a| <= |b|
  {
    assert b == a + (b - a);
  }

  function Prune(s: Store, now: int): Store {
    Store(LiveOrder(s.order, s.buckets, now), LiveBuckets(s.buckets, now))
  }

  function EvictOldest(s: Store): Store {
    if |s.buckets| >= MEMORY_MAX_BUCKETS && s.order != [] then Delete(s, s.order[0]) else s
  }

  function MakeRoom(s: Store, now: int): Store {
    if |s.buckets| >= MEMORY_MAX_BUCKETS then EvictOldest(Prune(s, now)) else s
  }

  // ------------------------------------------------------------------ memoryGet and memoryIncr

  function CountAt(s: Store, k: Key, now: int): nat {
    if k in s.buckets && IsLive(s.buckets[k], now) then s.buckets[k].count else 0
  }

  /** memoryGet: an expired bucket is dropped when it is read. */
  function AfterGet(s: Store, k: Key, now: int): Store {
    if k in s.buckets && !IsLive(s.buckets[k], now) then Delete(s, k) else s
  }

  /** memoryIncr. */
  function AfterIncr(s: Store, k: Key, window: int, now: int): Store {
    if k in s.buckets && IsLive(s.buckets[k], now)
    then s.(buckets := s.buckets[k := Bucket(s.buckets[k].count + 1, s.buckets[k].resetAt)])
    else Put(MakeRoom(s, now), k, Bucket(1, now + window))
  }

  // ------------------------------------------------------------------ one login attempt

  datatype Outcome = Failure | Success | Neither

  datatype Attempt = Attempt(client: string, at: int, outcome: Outcome)

  function AfterCheck(s: Store, cfg: Config, client: string, now: int): Store {
    var s1 := AfterGet(s, ClientKey(client), now);
    if cfg.globalMaxFailures > 0 then AfterGet(s1, GlobalKey, now) else s1
  }

  predicate Limited(s: Store, cfg: Config, client: string, now: int) {
    || CountAt(s, ClientKey(client), now) >= cfg.maxFailures
    || (cfg.globalMaxFailures > 0 && CountAt(s, GlobalKey, now) >= cfg.globalMaxFailures)
  }

  function AfterFailure(s: Store, cfg: Config, client: string, now: int): Store {
    var s1 := AfterIncr(s, ClientKey(client), Window(cfg), now);
    if cfg.globalMaxFailures > 0 then AfterIncr(s1, GlobalKey, Window(cfg), now) else s1
  }

  /** Check, and when admitted record the outcome, at one clock reading. */
  function AfterAttempt(s: Store, cfg: Config, a: Attempt): Store {
    var checked := AfterCheck(s, cfg, a.client, a.at);
    if Limited(s, cfg, a.client, a.at) then checked
    else match a.outcome
      case Failure => AfterFailure(checked, cfg, a.client, a.at)
      case Success => Delete(checked, ClientKey(a.client))
      case Neither => checked
  }

  // ------------------------------------------------------------------ stores stay well formed

  lemma {:induction false} WithoutKeeps(ks: seq<Key>, k: Key)
    requires Distinct(ks)
    ensures Distinct(Without(ks, k))
    ensures forall j :: j in Without(ks, k) <==> j in ks && j != k
  {
    if ks != [] {
      var front, last := ks[..|ks| - 1], ks[|ks| - 1];
      WithoutKeeps(front, k);
      assert forall j :: j in ks <==> j in front || j == last;
      if last != k { DistinctAppend(Without(front, k), last); }
    }
  }

  lemma {:induction false} LiveOrderKeeps(ks: seq<Key>, m: map<Key, Bucket>, now: int)
    requires Distinct(ks)
    ensures Distinct(LiveOrder(ks, m, now))
    ensures forall j :: j in LiveOrder(ks, m, now) <==> j in ks && j in m && IsLive(m[j], now)
  {
    if ks != [] {
      var front, last := ks[..|ks| - 1], ks[|ks| - 1];
      LiveOrderKeeps(front, m, now);
      var live := LiveOrder(front, m, now);
      assert forall j :: j in ks <==> j in front || j == last;
      if last in m && IsLive(m[last], now) { DistinctAppend(live, last); }
    }
  }

  lemma DeleteKeeps(s: Store, k: Key)
    requires ValidStore(s)
    ensures ValidStore(Delete(s, k))
    ensures k in s.buckets ==> |Delete(s, k).buckets| == |s.buckets| - 1
  {
    WithoutKeeps(s.order, k);
    assert Delete(s, k).buckets.Keys == s.buckets.Keys - {k};
  }

  lemma PutKeeps(s: Store, k: Key, b: Bucket)
    requires ValidStore(s)
    ensures ValidStore(Put(s, k, b))
    ensures |Put(s, k, b).buckets| == |s.buckets| + if k in s.buckets then 0 else 1
  {
    if k !in s.buckets { DistinctAppend(s.order, k); }
    assert Put(s, k, b).buckets.Keys == s.buckets.Keys + {k};
  }

  lemma PruneKeeps(s: Store, now: int)
    requires ValidStore(s)
    ensures ValidStore(Prune(s, now))
    ensures |Prune(s, now).buckets| <= |s.buckets|
  {
    LiveOrderKeeps(s.order, s.buckets, now);
  }

  lemma MakeRoomKeeps(s: Store, now: int)
    requires ValidStore(s)
    ensures ValidStore(MakeRoom(s, now))
    ensures |s.buckets| <= MEMORY_MAX_BUCKETS ==> |MakeRoom(s, now).buckets| < MEMORY_MAX_BUCKETS
  {
    if |s.buckets| >= MEMORY_MAX_BUCKETS {
      PruneKeeps(s, now);
      var p := Prune(s, now);
      if |p.buckets| >= MEMORY_MAX_BUCKETS {
        assert exists k :: k in p.buckets;
        assert p.order[0] in p.buckets;
        DeleteKeeps(p, p.order[0]);
      }
    }
  }

  /** A counter update keeps the map well formed and never lets it outgrow the cap. */
  lemma IncrKeeps(s: Store, k: Key, window: int, now: int)
    requires ValidStore(s)
    ensures ValidStore(AfterIncr(s, k, window, now))
    ensures |s.buckets| <= MEMORY_MAX_BUCKETS ==> |AfterIncr(s, k, window, now).buckets| <= MEMORY_MAX_BUCKETS
  {
    if k in s.buckets && IsLive(s.buckets[k], now) {
      assert AfterIncr(s, k, window, now).buckets.Keys == s.buckets.Keys;
    } else {
      MakeRoomKeeps(s, now);
      PutKeeps(MakeRoom(s, now), k, Bucket(1, now + window));
    }
  }

  /** The first i keys have been visited: the expired ones are gone, all else is untouched. */
  ghost predicate Swept(ks: seq<Key>, i: nat, before: map<Key, Bucket>, after: map<Key, Bucket>, now: int)
    requires i <= |ks|
  {
    && (forall j :: i <= j < |ks| ==> ks[j] in after)
    && (forall j :: 0 <= j < i ==> ks[j] in before && (ks[j] in after <==> IsLive(before[ks[j]], now)))
    && (forall k :: k in after ==> k in before && after[k] == before[k])
  }

  lemma SweepOne(ks: seq<Key>, i: nat, before: map<Key, Bucket>, after: map<Key, Bucket>, now: int)
    requires i < |ks| && Distinct(ks) && Swept(ks, i, before, after, now)
    ensures Swept(ks, i + 1, before, if IsLive(after[ks[i]], now) then after else after - {ks[i]}, now)
  {
    forall j | 0 <= j < |ks| && j != i ensures ks[j] != ks[i] {
      if j < i { DistinctAt(ks, j, i); } else { DistinctAt(ks, i, j); }
    }
  }

  lemma SweptAll(ks: seq<Key>, before: map<Key, Bucket>, after: map<Key, Bucket>, now: int)
    requires Swept(ks, |ks|, before, after, now)
    requires forall k :: k in before ==> k in ks
    ensures after == LiveBuckets(before, now)
  {
    forall k | k in before ensures k in after <==> IsLive(before[k], now) {
      assert k in ks;
    }
  }

  /** The pruning loop of memoryIncr, over the keys present when it starts. */
  method Sweep(keys: seq<Key>, buckets: map<Key, Bucket>, now: int) returns (kept: seq<Key>, rest: map<Key, Bucket>)
    requires Distinct(keys) && forall k :: k in keys <==> k in buckets
    ensures kept == LiveOrder(keys, buckets, now) && rest == LiveBuckets(buckets, now)
  {
    kept, rest := [], buckets;
    for i := 0 to |keys|
      invariant kept == LiveOrder(keys[..i], buckets, now)
      invariant Swept(keys, i, buckets, rest, now)
    {
      assert keys[..i + 1][..i] == keys[..i];
      SweepOne(keys, i, buckets, rest, now);
      if rest[keys[i]].resetAt <= now {
        rest := rest - {keys[i]};
      } else {
        kept := kept + [keys[i]];
      }
    }
    assert keys[..|keys|] == keys;
    SweptAll(keys, buckets, rest, now);
  }

  // ------------------------------------------------------------------ the mutable store

  class MemoryBuckets {
    var order: seq<Key>
    var buckets: map<Key, Bucket>

    function Contents(): Store
      reads this
    {
      Store(order, buckets)
    }

    constructor ()
      ensures Contents() == Store([], map[])
    {
      order, buckets := [], map[];
    }

    method Remove(k: Key)
      modifies this
      ensures Contents() == Delete(old(Contents()), k)
    {
      order := Without(order, k);
      buckets := buckets - {k};
    }

    method MemoryGet(k: Key, now: int) returns (count: nat)
      modifies this
      ensures Contents() == AfterGet(old(Contents()), k, now)
      ensures count == CountAt(old(Contents()), k, now)
    {
      if k !in buckets {
        return 0;
      }
      var entry := buckets[k];
      if entry.resetAt <= now {
        Remove(k);
        return 0;
      }
      return entry.count;
    }

    method PruneExpired(now: int)
      requires ValidStore(Contents())
      modifies this
      ensures Contents() == Prune(old(Contents()), now)
    {
      order, buckets := Sweep(order, buckets, now);
    }

    method MemoryIncr(k: Key, window: int, now: int)
      requires ValidStore(Contents())
      modifies this
      ensures Contents() == AfterIncr(old(Contents()), k, window, now)
    {
      if k in buckets && buckets[k].resetAt > now {
        buckets := buckets[k := Bucket(buckets[k].count + 1, buckets[k].resetAt)];
        return;
      }
      if |buckets| >= MEMORY_MAX_BUCKETS {
        PruneExpired(now);
        if |buckets| >= MEMORY_MAX_BUCKETS && order != [] {
          Remove(order[0]);
        }
      }
      order := if k in buckets then order else order + [k];
      buckets := buckets[k := Bucket(1, now + window)];
    }

    method CheckLoginAllowed(cfg: Config, client: string, now: int) returns (limited: bool)
      modifies this
      ensures Contents() == AfterCheck(old(Contents()), cfg, client, now)
      ensures limited == Limited(old(Contents()), cfg, client, now)
    {
      var clientCount := MemoryGet(ClientKey(client), now);
      var globalCount := 0;
      if cfg.globalMaxFailures > 0 {
        globalCount := MemoryGet(GlobalKey, now);
      }
      limited := clientCount >= cfg.maxFailures || (cfg.globalMaxFailures > 0 && globalCount >= cfg.globalMaxFailures);
    }

    method RecordLoginFailure(cfg: Config, client: string, now: int)
      requires ValidStore(Contents())
      modifies this
      ensures Contents() == AfterFailure(old(Contents()), cfg, client, now)
      ensures ValidStore(Contents())
    {
      IncrKeeps(Contents(), ClientKey(client), Window(cfg), now);
      MemoryIncr(ClientKey(client), Window(cfg), now);
      if cfg.globalMaxFailures > 0 {
        IncrKeeps(Contents(), GlobalKey, Window(cfg), now);
        MemoryIncr(GlobalKey, Window(cfg), now);
      }
    }

    method RecordLoginSuccess(client: string)
      requires ValidStore(Contents())
      modifies this
      ensures Contents() == Delete(old(Contents()), ClientKey(client))
      ensures ValidStore(Contents())
    {
      DeleteKeeps(Contents(), ClientKey(client));
      Remove(ClientKey(client));
    }

    /** One login attempt: the check, and when it is admitted the record of its outcome. */
    method TryLogin(cfg: Config, a: Attempt) returns (limited: bool)
      requires ValidStore(Contents())
      modifies this
      ensures Contents() == AfterAttempt(old(Contents()), cfg, a)
      ensures limited == Limited(old(Contents()), cfg, a.client, a.at)
      ensures ValidStore(Contents())
    {
      DeleteKeeps(Contents(), ClientKey(a.client));
      DeleteKeeps(AfterGet(Contents(), ClientKey(a.client), a.at), GlobalKey);
      limited := CheckLoginAllowed(cfg, a.client, a.at);
      if !limited {
        match a.outcome
        case Failure => RecordLoginFailure(cfg, a.client, a.at);
        case Success => RecordLoginSuccess(a.client);
        case Neither =>
      }
    }
  }
}
