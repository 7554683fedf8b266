/** Interleavings of stale reads, their commits and serial actions, and what they keep. */
module GovernanceRaces {
  import opened Wrappers
  import opened Governance
  import opened GovernanceRuns
  import opened GovernanceSafety
  import opened GovernanceCommits

  datatype Event = Serial(action: Action) | Read(action: Action) | Commit(k: nat)

  /** The actions that have read and not yet written; None once written, or refused by their reads. */
  datatype World = World(tables: Tables, waiting: seq<Option<Stale>>)

  predicate Waits(w: World, k: nat) { k < |w.waiting| && w.waiting[k].Some? }

  predicate AllFit(w: World) {
    forall k :: 0 <= k < |w.waiting| && w.waiting[k].Some? ==> StaleFits(w.tables, w.waiting[k].value)
  }

  function Next(w: World, e: Event): World
    requires AllFit(w)
  {
    match e
    case Serial(a) => w.(tables := Step(w.tables, a))
    case Read(a) => w.(waiting := w.waiting + [ReadAction(w.tables, a)])
    case Commit(k) =>
      if !Waits(w, k) then w
      else
        var written := CommitStale(w.tables, w.waiting[k].value);
        World(if written.Some? then written.value else w.tables, w.waiting[k := None])
  }

  /** The worlds an interleaving passes through. */
  ghost predicate Interleaving(worlds: seq<World>, events: seq<Event>) {
    && |worlds| == |events| + 1 && worlds[0].waiting == []
    && forall i :: 0 <= i < |events| ==> Steps(worlds, events, i)
  }

  ghost predicate Steps(worlds: seq<World>, events: seq<Event>, i: nat)
    requires i < |events| < |worlds|
  {
    AllFit(worlds[i]) && worlds[i + 1] == Next(worlds[i], events[i])
  }

  // ------------------------------------------------------------------ one ACTIVE version per strategy

  ghost predicate Safe(w: World) { AllFit(w) && SingleActive(w.tables.versions) }

  lemma GrownFits(w: World, u: Tables)
    requires AllFit(w) && Grows(w.tables, u)
    ensures AllFit(World(u, w.waiting))
  {
    forall k | 0 <= k < |w.waiting| && w.waiting[k].Some? { FitsLater(w.tables, u, w.waiting[k].value); }
  }

  lemma NextIsSafe(w: World, e: Event)
    requires Safe(w)
    ensures Safe(Next(w, e))
  {
    match e
    case Serial(a) =>
      SerialGrows(w.tables, a);
      GrownFits(w, Step(w.tables, a));
      StepKeepsSingle(w.tables, a);
    case Read(a) =>
      if ReadAction(w.tables, a).Some? { ReadFits(w.tables, a); }
    case Commit(k) =>
      if Waits(w, k) && CommitStale(w.tables, w.waiting[k].value).Some? {
        CommitGrows(w.tables, w.waiting[k].value);
        GrownFits(w, CommitStale(w.tables, w.waiting[k].value).value);
        StaleKeepsSingle(w.tables, w.waiting[k].value);
      }
  }

  /** No interleaving of stale reads, commits and serial actions yields two ACTIVE versions of a strategy. */
  lemma {:induction false} InterleavingsAreSafe(worlds: seq<World>, events: seq<Event>, n: nat)
    requires Interleaving(worlds, events) && n <= |events| && SingleActive(worlds[0].tables.versions)
    ensures Safe(worlds[n])
  {
    if n > 0 {
      InterleavingsAreSafe(worlds, events, n - 1);
      NextIsSafe(worlds[n - 1], events[n - 1]);
      assert Steps(worlds, events, n - 1);
    }
  }

  // ------------------------------------------------------------------ what every interleaving keeps

  ghost predicate Kept(w: World, base: nat) {
    && TablesKept(w.tables, base)
    && forall k :: 0 <= k < |w.waiting| && w.waiting[k].Some? ==> StaleKept(w.tables, base, w.waiting[k].value)
  }

  lemma GrownKept(w: World, base: nat, u: Tables)
    requires Kept(w, base) && Grows(w.tables, u) && TablesKept(u, base)
    ensures Kept(World(u, w.waiting), base)
  {
    forall k | 0 <= k < |w.waiting| && w.waiting[k].Some? { StaleStaysKept(w.tables, u, base, w.waiting[k].value); }
  }

  lemma NextIsKept(w: World, base: nat, e: Event)
    requires Kept(w, base) && AllFit(w)
    ensures Kept(Next(w, e), base)
  {
    match e
    case Serial(a) =>
      SerialGrows(w.tables, a);
      SerialKeepsTables(w.tables, base, a);
      GrownKept(w, base, Step(w.tables, a));
    case Read(a) =>
      if ReadAction(w.tables, a).Some? { ReadActionIsKept(w.tables, base, a); }
    case Commit(k) =>
      if Waits(w, k) && CommitStale(w.tables, w.waiting[k].value).Some? {
        CommitGrows(w.tables, w.waiting[k].value);
        CommitKeepsTables(w.tables, base, w.waiting[k].value);
        GrownKept(w, base, CommitStale(w.tables, w.waiting[k].value).value);
      }
  }

  lemma FreshIsKept(t: Tables)
    requires Fresh(t)
    ensures TablesKept(t, |t.approvals|)
  {}

  lemma KeptFits(w: World, base: nat)
    requires Kept(w, base)
    ensures AllFit(w)
  {}

  /**
   * What every interleaving keeps: one ACTIVE version per strategy, numbers 1..n, no version ACTIVE without
   * a review by someone other than its requester, and audit rows that fold to every stored status.
   */
  lemma {:induction false} InterleavingsAreKept(worlds: seq<World>, events: seq<Event>, n: nat)
    requires Interleaving(worlds, events) && n <= |events| && Fresh(worlds[0].tables)
    ensures Kept(worlds[n], |worlds[0].tables.approvals|) && AllFit(worlds[n])
  {
    if n == 0 {
      FreshIsKept(worlds[0].tables);
    } else {
      InterleavingsAreKept(worlds, events, n - 1);
      NextIsKept(worlds[n - 1], |worlds[0].tables.approvals|, events[n - 1]);
      assert Steps(worlds, events, n - 1);
      KeptFits(worlds[n], |worlds[0].tables.approvals|);
    }
  }

  // ------------------------------------------------------------------ finality, exactly

  /** The commit of an approval that had read every ACTIVE sibling activates its version. */
  ghost predicate Revives(w: World, e: Event, i: nat)
    requires AllFit(w)
  {
    e.Commit? && Waits(w, e.k) && Activates(w.tables, w.waiting[e.k].value, i)
  }

  /** A paused, retired or rejected version becomes ACTIVE at one step exactly when that step revives it. */
  lemma RevivalIff(w: World, base: nat, e: Event, i: nat)
    requires Kept(w, base) && AllFit(w) && Closed(w.tables, base, i)
    ensures i < |Next(w, e).tables.versions|
    ensures Next(w, e).tables.versions[i].status == ACTIVE <==> Revives(w, e, i)
    ensures Closed(Next(w, e).tables, base, i) <==> !Revives(w, e, i)
  {
    match e
    case Serial(a) => SerialKeepsClosed(w.tables, base, a, i);
    case Read(_) =>
    case Commit(k) =>
      if Waits(w, k) { CommitOfClosed(w.tables, base, w.waiting[k].value, i); }
  }

  predicate IsActive(w: World, i: nat) { i < |w.tables.versions| && w.tables.versions[i].status == ACTIVE }

  predicate NeverActive(worlds: seq<World>, n: nat, m: nat, i: nat)
    requires m < |worlds|
  {
    forall k :: n <= k <= m ==> !IsActive(worlds[k], i)
  }

  ghost predicate RevivesAt(worlds: seq<World>, events: seq<Event>, k: nat, i: nat) {
    k < |events| && k < |worlds| && AllFit(worlds[k]) && Revives(worlds[k], events[k], i)
  }

  ghost predicate NoRevival(worlds: seq<World>, events: seq<Event>, n: nat, m: nat, i: nat) {
    forall k :: n <= k < m ==> !RevivesAt(worlds, events, k, i)
  }

  lemma RevivalAt(worlds: seq<World>, events: seq<Event>, k: nat, i: nat)
    requires Interleaving(worlds, events) && k < |events| && Fresh(worlds[0].tables)
    requires Closed(worlds[k].tables, |worlds[0].tables.approvals|, i)
    ensures IsActive(worlds[k + 1], i) <==> RevivesAt(worlds, events, k, i)
    ensures Closed(worlds[k + 1].tables, |worlds[0].tables.approvals|, i) <==> !RevivesAt(worlds, events, k, i)
  {
    InterleavingsAreKept(worlds, events, k);
    assert Steps(worlds, events, k);
    RevivalIff(worlds[k], |worlds[0].tables.approvals|, events[k], i);
  }

  /** From where a version is shut it is never ACTIVE again exactly as long as no commit revives it. */
  lemma {:induction false} FinalityIff(worlds: seq<World>, events: seq<Event>, n: nat, m: nat, i: nat)
    requires Interleaving(worlds, events) && n <= m <= |events| && Fresh(worlds[0].tables)
    requires Closed(worlds[n].tables, |worlds[0].tables.approvals|, i)
    ensures NeverActive(worlds, n, m, i) <==> NoRevival(worlds, events, n, m, i)
    ensures NoRevival(worlds, events, n, m, i) ==> Closed(worlds[m].tables, |worlds[0].tables.approvals|, i)
    decreases m
  {
    if m > n {
      FinalityIff(worlds, events, n, m - 1, i);
      if NoRevival(worlds, events, n, m - 1, i) {
        RevivalAt(worlds, events, m - 1, i);
        OneMore(worlds, events, n, m, i);
      }
    }
  }

  lemma OneMore(worlds: seq<World>, events: seq<Event>, n: nat, m: nat, i: nat)
    requires n < m < |worlds|
    requires NeverActive(worlds, n, m - 1, i) && NoRevival(worlds, events, n, m - 1, i)
    ensures NeverActive(worlds, n, m, i) <==> !IsActive(worlds[m], i)
    ensures NoRevival(worlds, events, n, m, i) <==> !RevivesAt(worlds, events, m - 1, i)
  {}

  // ------------------------------------------------------------------ the audit log, exactly

  /** A commit whose audit rows misstate what they replace. */
  ghost predicate Misstates(w: World, e: Event)
    requires AllFit(w)
  {
    e.Commit? && Waits(w, e.k) && CommitStale(w.tables, w.waiting[e.k].value).Some?
        && !StillCurrent(w.tables, w.waiting[e.k].value)
  }

  lemma NextChains(w: World, base: nat, e: Event)
    requires Kept(w, base) && AllFit(w)
    ensures Chained(Next(w, e).tables.audit) <==> Chained(w.tables.audit) && !Misstates(w, e)
  {
    match e
    case Serial(a) => SerialChains(w.tables, base, a);
    case Read(_) =>
    case Commit(k) =>
      if Waits(w, k) && CommitStale(w.tables, w.waiting[k].value).Some? {
        StaleChainsIff(w.tables, base, w.waiting[k].value);
      }
  }

  ghost predicate NothingMisstated(worlds: seq<World>, events: seq<Event>, n: nat) {
    forall k :: 0 <= k < n ==> !MisstatesAt(worlds, events, k)
  }

  ghost predicate MisstatesAt(worlds: seq<World>, events: seq<Event>, k: nat) {
    k < |events| && k < |worlds| && AllFit(worlds[k]) && Misstates(worlds[k], events[k])
  }

  lemma ChainAt(worlds: seq<World>, events: seq<Event>, k: nat)
    requires Interleaving(worlds, events) && k < |events| && Fresh(worlds[0].tables)
    ensures Chained(worlds[k + 1].tables.audit) <==>
      Chained(worlds[k].tables.audit) && !MisstatesAt(worlds, events, k)
  {
    InterleavingsAreKept(worlds, events, k);
    assert Steps(worlds, events, k);
    NextChains(worlds[k], |worlds[0].tables.approvals|, events[k]);
  }

  lemma OneMoreStated(worlds: seq<World>, events: seq<Event>, n: nat)
    requires n > 0
    ensures NothingMisstated(worlds, events, n) <==>
      NothingMisstated(worlds, events, n - 1) && !MisstatesAt(worlds, events, n - 1)
  {}

  /** The "before" of every audit row is the status folded so far exactly if every commit wrote what it had read. */
  lemma {:induction false} ChainIff(worlds: seq<World>, events: seq<Event>, n: nat)
    requires Interleaving(worlds, events) && n <= |events| && Fresh(worlds[0].tables)
    ensures Chained(worlds[n].tables.audit) <==> NothingMisstated(worlds, events, n)
  {
    if n > 0 {
      ChainIff(worlds, events, n - 1);
      ChainAt(worlds, events, n - 1);
      OneMoreStated(worlds, events, n);
    }
  }

  // ------------------------------------------------------------------ approvals, exactly

  ghost predicate RejectsAt(worlds: seq<World>, events: seq<Event>, k: nat) {
    k < |events| && k < |worlds| && AllFit(worlds[k]) &&
    var w, e := worlds[k], events[k];
    e.Commit? && Waits(w, e.k) && RejectsActive(w.tables, w.waiting[e.k].value)
  }

  ghost predicate NoneRejected(worlds: seq<World>, events: seq<Event>, n: nat) {
    forall k :: 0 <= k < n ==> !RejectsAt(worlds, events, k)
  }

  ghost predicate AlwaysApproved(worlds: seq<World>, n: nat)
    requires n < |worlds|
  {
    forall k :: 0 <= k <= n ==> ActivesApproved(worlds[k].tables, |worlds[0].tables.approvals|)
  }

  lemma NextApproves(w: World, base: nat, e: Event)
    requires Kept(w, base) && AllFit(w) && ActivesApproved(w.tables, base)
    ensures ActivesApproved(Next(w, e).tables, base)
      <==> !(e.Commit? && Waits(w, e.k) && RejectsActive(w.tables, w.waiting[e.k].value))
  {
    match e
    case Serial(a) => SerialApproves(w.tables, base, a);
    case Read(_) =>
    case Commit(k) =>
      if Waits(w, k) && CommitStale(w.tables, w.waiting[k].value).Some? {
        CommitApproves(w.tables, base, w.waiting[k].value);
      }
  }

  lemma ApprovedAt(worlds: seq<World>, events: seq<Event>, k: nat)
    requires Interleaving(worlds, events) && k < |events| && Fresh(worlds[0].tables)
    requires ActivesApproved(worlds[k].tables, |worlds[0].tables.approvals|)
    ensures ActivesApproved(worlds[k + 1].tables, |worlds[0].tables.approvals|) <==> !RejectsAt(worlds, events, k)
  {
    InterleavingsAreKept(worlds, events, k);
    assert Steps(worlds, events, k);
    NextApproves(worlds[k], |worlds[0].tables.approvals|, events[k]);
  }

  lemma OneMoreApproved(worlds: seq<World>, events: seq<Event>, n: nat)
    requires 0 < n < |worlds| && AlwaysApproved(worlds, n - 1) && NoneRejected(worlds, events, n - 1)
    ensures AlwaysApproved(worlds, n) <==> ActivesApproved(worlds[n].tables, |worlds[0].tables.approvals|)
    ensures NoneRejected(worlds, events, n) <==> !RejectsAt(worlds, events, n - 1)
  {}

  /** Every ACTIVE version has its APPROVED approval exactly as long as no rejection commits against an ACTIVE one. */
  lemma {:induction false} ApprovedIff(worlds: seq<World>, events: seq<Event>, n: nat)
    requires Interleaving(worlds, events) && n <= |events| && Fresh(worlds[0].tables)
    ensures AlwaysApproved(worlds, n) <==> NoneRejected(worlds, events, n)
  {
    if n == 0 {
      FreshIsKept(worlds[0].tables);
    } else {
      ApprovedIff(worlds, events, n - 1);
      if NoneRejected(worlds, events, n - 1) {
        ApprovedAt(worlds, events, n - 1);
        OneMoreApproved(worlds, events, n);
      }
    }
  }
}
