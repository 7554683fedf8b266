/** Whole runs of the in-process limiter, against a log of the failures it recorded. */
module LimiterRuns {
  import opened Wrappers
  import opened Limiter

  datatype Event = Failed(client: string, at: int) | Cleared(client: string)

  function Recorded(s: Store, cfg: Config, a: Attempt): seq<Event> {
    if Limited(s, cfg, a.client, a.at) then []
    else match a.outcome
      case Failure => [Failed(a.client, a.at)]
      case Success => [Cleared(a.client)]
      case Neither => []
  }

  /** The store and the log after a run that starts from an empty store. */
  function StoreAfter(cfg: Config, run: seq<Attempt>): Store {
    if run == [] then Store([], map[])
    else AfterAttempt(StoreAfter(cfg, run[..|run| - 1]), cfg, run[|run| - 1])
  }

  function LogAfter(cfg: Config, run: seq<Attempt>): seq<Event> {
    if run == [] then []
    else
      var front := run[..|run| - 1];
      LogAfter(cfg, front) + Recorded(StoreAfter(cfg, front), cfg, run[|run| - 1])
  }

  /** The store object after the attempts of a run, made one by one. */
  method Serve(cfg: Config, run: seq<Attempt>) returns (m: MemoryBuckets)
    ensures m.Contents() == StoreAfter(cfg, run)
  {
    m := new MemoryBuckets();
    for i := 0 to |run|
      invariant fresh(m) && ValidStore(m.Contents()) && m.Contents() == StoreAfter(cfg, run[..i])
    {
      assert run[..i + 1][..i] == run[..i];
      var _ := m.TryLogin(cfg, run[i]);
    }
    assert run[..|run|] == run;
  }

  /** A clock that never goes backwards. */
  ghost predicate Ordered(run: seq<Attempt>) {
    forall i, j :: 0 <= i < j < |run| ==> run[i].at <= run[j].at
  }

  // ------------------------------------------------------------------ the reference counters

  predicate CountsFor(e: Event, k: Key) {
    e.Failed? && (k == GlobalKey || k == ClientKey(e.client))
  }

  predicate Resets(e: Event, k: Key) {
    e.Cleared? && k == ClientKey(e.client)
  }

  /** What a fixed-window counter of unbounded memory would hold for one key. */
  function Ideal(log: seq<Event>, k: Key, window: int): Option<Bucket> {
    if log == [] then None
    else
      var e, before := log[|log| - 1], Ideal(log[..|log| - 1], k, window);
      if CountsFor(e, k) then Some(Counted(before, window, e.at))
      else if Resets(e, k) then None
      else before
  }

  function Counted(b: Option<Bucket>, window: int, at: int): Bucket {
    if b.Some? && IsLive(b.value, at) then Bucket(b.value.count + 1, b.value.resetAt) else Bucket(1, at + window)
  }

  function LiveOnly(b: Option<Bucket>, now: int): Option<Bucket> {
    if b.Some? && IsLive(b.value, now) then b else None
  }

  function Held(s: Store, k: Key): Option<Bucket> {
    if k in s.buckets then Some(s.buckets[k]) else None
  }

  function CountOf(b: Option<Bucket>, now: int): nat {
    if b.Some? && IsLive(b.value, now) then b.value.count else 0
  }

  function CountSince(log: seq<Event>, k: Key): nat {
    if log == [] then 0 else CountSince(log[..|log| - 1], k) + if CountsFor(log[|log| - 1], k) then 1 else 0
  }

  /** The log from i on is one window of k: opened by a failure, never reset, ended at `resetAt`. */
  ghost predicate IsWindow(log: seq<Event>, i: nat, k: Key, b: Bucket, window: int) {
    && i < |log| && CountsFor(log[i], k) && b.resetAt == log[i].at + window
    && (forall j :: i <= j < |log| ==> !Resets(log[j], k))
    && (forall j :: i < j < |log| && CountsFor(log[j], k) ==> log[j].at < b.resetAt)
    && b.count == CountSince(log[i..], k)
  }

  /** An ideal counter is the number of failures since its window opened, counting from the last reset. */
  lemma {:induction false} IdealIsWindow(log: seq<Event>, k: Key, window: int) returns (i: nat)
    requires Ideal(log, k, window).Some?
    ensures IsWindow(log, i, k, Ideal(log, k, window).value, window)
  {
    var n := |log| - 1;
    var front, e := log[..n], log[n];
    var before := Ideal(front, k, window);
    if CountsFor(e, k) && !(before.Some? && IsLive(before.value, e.at)) {
      i := n;
      assert log[n..] == [e];
      assert [e][..0] == [];
    } else {
      i := IdealIsWindow(front, k, window);
      assert log[i..][..n - i] == front[i..];
      assert log[i..][n - i] == e;
      assert forall j :: i <= j < n ==> log[j] == front[j];
    }
  }

  // ------------------------------------------------------------------ failures in an interval

  function FailuresFrom(log: seq<Event>, lo: int): nat {
    if log == [] then 0
    else
      var e := log[|log| - 1];
      FailuresFrom(log[..|log| - 1], lo) + if e.Failed? && e.at >= lo then 1 else 0
  }

  /** The failures at lo <= at < hi. */
  function FailuresIn(log: seq<Event>, lo: int, hi: int): nat {
    if log == [] then 0
    else
      var e := log[|log| - 1];
      FailuresIn(log[..|log| - 1], lo, hi) + if e.Failed? && lo <= e.at < hi then 1 else 0
  }

  lemma {:induction false} InIsDifference(log: seq<Event>, lo: int, hi: int)
    requires lo <= hi
    ensures FailuresIn(log, lo, hi) == FailuresFrom(log, lo) - FailuresFrom(log, hi)
  {
    if log != [] {
      InIsDifference(log[..|log| - 1], lo, hi);
    }
  }

  lemma {:induction false} FromAntitone(log: seq<Event>, lo: int, hi: int)
    requires lo <= hi
    ensures FailuresFrom(log, hi) <= FailuresFrom(log, lo)
  {
    if log != [] {
      FromAntitone(log[..|log| - 1], lo, hi);
    }
  }

  // ------------------------------------------------------------------ the window bound, on logs

  /** Each failure was admitted by the ideal global counter, and the clock never went backwards. */
  predicate Admitted(log: seq<Event>, limit: nat, window: int) {
    log == [] ||
    var front, e := log[..|log| - 1], log[|log| - 1];
    Admitted(front, limit, window) && (e.Failed? ==> AdmittedAfter(front, e.at, limit, window))
  }

  predicate AdmittedAfter(front: seq<Event>, at: int, limit: nat, window: int) {
    CountOf(Ideal(front, GlobalKey, window), at) < limit && FailuresFrom(front, at + 1) == 0
  }

  /** The current window opened at s, nothing lies beyond it, and it never shares its length with a full one. */
  ghost predicate Spread(log: seq<Event>, limit: nat, window: int, s: int) {
    && 1 <= FailuresFrom(log, s) <= limit
    && FailuresFrom(log, s + window) == 0
    && forall lo :: SpreadAt(log, limit, window, s, lo)
  }

  ghost predicate SpreadAt(log: seq<Event>, limit: nat, window: int, s: int, lo: int) {
    && (lo > s ==> FailuresFrom(log, lo) < FailuresFrom(log, s))
    && (lo > s - window ==> FailuresFrom(log, lo) < FailuresFrom(log, s) + limit)
  }

  ghost predicate Bounded(log: seq<Event>, limit: nat, window: int) {
    forall lo :: BoundedAt(log, limit, window, lo)
  }

  ghost predicate BoundedAt(log: seq<Event>, limit: nat, window: int, lo: int) {
    FailuresFrom(log, lo) < FailuresFrom(log, lo + window) + 2 * limit
  }

  lemma FailuresFromAppend(front: seq<Event>, e: Event, lo: int)
    ensures FailuresFrom(front + [e], lo) == FailuresFrom(front, lo) + if e.Failed? && e.at >= lo then 1 else 0
  {
    assert (front + [e])[..|front|] == front;
  }

  /** A failure inside the current window. */
  lemma FailureInWindow(front: seq<Event>, e: Event, limit: nat, window: int, s: int)
    requires window > 0 && e.Failed? && s <= e.at < s + window
    requires Spread(front, limit, window, s) && Bounded(front, limit, window)
    requires FailuresFrom(front, s) < limit
    ensures Spread(front + [e], limit, window, s) && Bounded(front + [e], limit, window)
  {
    var log := front + [e];
    FailuresFromAppend(front, e, s);
    FailuresFromAppend(front, e, s + window);
    forall lo ensures SpreadAt(log, limit, window, s, lo) && BoundedAt(log, limit, window, lo) {
      FailuresFromAppend(front, e, lo);
      FailuresFromAppend(front, e, lo + window);
      assert SpreadAt(front, limit, window, s, lo) && BoundedAt(front, limit, window, lo);
    }
  }

  /** A failure that opens a new window. */
  lemma FailureOpens(front: seq<Event>, e: Event, limit: nat, window: int, s: int)
    requires window > 0 && e.Failed? && e.at >= s + window
    requires Spread(front, limit, window, s) && Bounded(front, limit, window)
    ensures Spread(front + [e], limit, window, e.at) && Bounded(front + [e], limit, window)
    ensures FailuresFrom(front + [e], e.at) == 1
  {
    var log := front + [e];
    FromAntitone(front, s + window, e.at);
    FailuresFromAppend(front, e, e.at);
    FromAntitone(front, s + window, e.at + window);
    FailuresFromAppend(front, e, e.at + window);
    forall lo ensures SpreadAt(log, limit, window, e.at, lo) && BoundedAt(log, limit, window, lo) {
      FailuresFromAppend(front, e, lo);
      FailuresFromAppend(front, e, lo + window);
      assert SpreadAt(front, limit, window, s, lo) && BoundedAt(front, limit, window, lo);
      if lo > e.at { FromAntitone(front, e.at, lo); }
    }
  }

  /** What is known of a log from its ideal global counter b. */
  ghost predicate Tracked(log: seq<Event>, limit: nat, window: int, b: Option<Bucket>) {
    && Bounded(log, limit, window)
    && (b.None? ==> forall lo :: FailuresFrom(log, lo) == 0)
    && (b.Some? ==>
          var s := b.value.resetAt - window;
          b.value.count == FailuresFrom(log, s) && Spread(log, limit, window, s))
  }

  lemma NextFailure(front: seq<Event>, e: Event, limit: nat, window: int, b: Option<Bucket>)
    requires window > 0 && e.Failed?
    requires CountOf(b, e.at) < limit
    requires FailuresFrom(front, e.at + 1) == 0
    requires Tracked(front, limit, window, b)
    ensures Tracked(front + [e], limit, window, Some(Counted(b, window, e.at)))
  {
    if b.None? {
      FirstFailure(front, e, limit, window);
    } else {
      var s := b.value.resetAt - window;
      if IsLive(b.value, e.at) {
        if e.at < s {
          FromAntitone(front, e.at + 1, s);
        }
        FailuresFromAppend(front, e, s);
        FailureInWindow(front, e, limit, window, s);
      } else {
        FailureOpens(front, e, limit, window, s);
      }
    }
  }

  lemma FirstFailure(front: seq<Event>, e: Event, limit: nat, window: int)
    requires window > 0 && limit > 0 && e.Failed?
    requires forall lo :: FailuresFrom(front, lo) == 0
    ensures Spread(front + [e], limit, window, e.at) && Bounded(front + [e], limit, window)
    ensures FailuresFrom(front + [e], e.at) == 1
  {
    FailuresFromAppend(front, e, e.at);
    FailuresFromAppend(front, e, e.at + window);
    forall lo ensures SpreadAt(front + [e], limit, window, e.at, lo) && BoundedAt(front + [e], limit, window, lo) {
      FailuresFromAppend(front, e, lo);
      FailuresFromAppend(front, e, lo + window);
    }
  }

  lemma NextReset(front: seq<Event>, e: Event, limit: nat, window: int, b: Option<Bucket>)
    requires e.Cleared? && Tracked(front, limit, window, b)
    ensures Tracked(front + [e], limit, window, b)
  {
    var log := front + [e];
    forall lo ensures FailuresFrom(log, lo) == FailuresFrom(front, lo) {
      FailuresFromAppend(front, e, lo);
    }
    forall lo ensures BoundedAt(log, limit, window, lo) {
      assert BoundedAt(front, limit, window, lo);
    }
    if b.Some? {
      var s := b.value.resetAt - window;
      forall lo ensures SpreadAt(log, limit, window, s, lo) {
        assert SpreadAt(front, limit, window, s, lo);
      }
    }
  }

  /** The window bound: a log admitted by the ideal counter has at most 2 * limit - 1 failures per window. */
  lemma {:induction false} AdmittedIsTracked(log: seq<Event>, limit: nat, window: int)
    requires limit > 0 && window > 0
    requires Admitted(log, limit, window)
    ensures Tracked(log, limit, window, Ideal(log, GlobalKey, window))
  {
    if log == [] {
      assert forall lo :: FailuresFrom(log, lo) == 0;
    } else {
      var n := |log| - 1;
      var front, e := log[..n], log[n];
      assert log == front + [e];
      AdmittedIsTracked(front, limit, window);
      var b := Ideal(front, GlobalKey, window);
      if e.Failed? {
        NextFailure(front, e, limit, window, b);
      } else {
        NextReset(front, e, limit, window, b);
      }
    }
  }

  lemma AdmittedPerWindow(log: seq<Event>, limit: nat, window: int, lo: int)
    requires limit > 0 && window > 0
    requires Admitted(log, limit, window)
    ensures FailuresIn(log, lo, lo + window) <= 2 * limit - 1
  {
    AdmittedIsTracked(log, limit, window);
    assert BoundedAt(log, limit, window, lo);
    InIsDifference(log, lo, lo + window);
  }
}
