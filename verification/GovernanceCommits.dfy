/**
 * Governance transactions split into a stale read and a later commit. The database guards a commit with its
 * unique keys: the name of a strategy, a version's number within its strategy, and one ACTIVE version each.
 */
module GovernanceCommits {
  import opened Wrappers
  import opened Governance
  import opened GovernanceRuns
  import opened GovernanceSafety

  // ------------------------------------------------------------------ reads and commits

  /** The strategy a registration found, and the number it will give its version. */
  datatype Known = Known(strategy: nat, number: nat)

  /** What an action has read when it starts to write. */
  datatype Stale =
    | StaleReview(plan: Plan)
    | StaleRetire(id: nat, seen: VersionStatus, actor: string, reason: Option<string>)
    | StaleRegister(request: RegisterRequest, known: Option<Known>)

  /** The reads and checks of an action; None if it is refused. */
  function ReadAction(t: Tables, a: Action): Option<Stale> {
    match a
    case DoRegister(input) =>
      var r := ValidateRegister(input);
      if r.None? then None
      else
        var found := FindStrategy(t.strategies, r.value.name);
        Some(StaleRegister(r.value, if found.None? then None else Some(Known(found.value, NextNumber(t, found)))))
    case DoReview(input) =>
      var r := ValidateReview(input);
      if r.None? then None
      else
        var p := ReadReview(t, r.value);
        if p.None? then None else Some(StaleReview(p.value))
    case DoRetire(input) =>
      var actor, reason, id := RequireActor(input.actor), RequireText(input.reason), input.versionId;
      if actor.None? || reason.None? || id >= |t.versions| || t.versions[id].status == RETIRED then None
      else Some(StaleRetire(id, t.versions[id].status, actor.value, reason))
  }

  predicate StaleFits(t: Tables, s: Stale) {
    match s
    case StaleReview(p) => Fits(t, p)
    case StaleRetire(id, _, _, _) => id < |t.versions|
    case StaleRegister(_, known) => known.Some? ==> known.value.strategy < |t.strategies|
  }

  /** The unique key on a strategy and a version number. */
  predicate Taken(versions: seq<Version>, strategy: nat, number: nat) {
    exists i :: 0 <= i < |versions| && versions[i].strategyId == strategy && versions[i].number == number
  }

  /** The latest number of a strategy that the registration itself creates is read after its creation. */
  function CommitRegister(t: Tables, r: RegisterRequest, known: Option<Known>): Option<Tables> {
    match known
    case None => if FindStrategy(t.strategies, r.name).Some? then None else Some(Enroll(t, r).0)
    case Some(k) =>
      if Taken(t.versions, k.strategy, k.number) then None
      else Some(EnrollUnder(t, r, Some(k.strategy), k.number).0)
  }

  /** The writes of an action, against whatever the tables hold by then; None if a unique key refuses them. */
  function CommitStale(t: Tables, s: Stale): Option<Tables>
    requires StaleFits(t, s)
  {
    match s
    case StaleReview(p) => CommitReview(t, p)
    case StaleRetire(id, seen, actor, reason) => Some(Mark(t, id, seen, RETIRED, actor, reason, None))
    case StaleRegister(r, known) => CommitRegister(t, r, known)
  }

  lemma {:induction false} LatestIsHighest(versions: seq<Version>, strategy: nat, i: nat)
    requires i < |versions| && versions[i].strategyId == strategy
    ensures versions[i].number <= LatestNumber(versions, strategy)
  {
    if i < |versions| - 1 { LatestIsHighest(versions[..|versions| - 1], strategy, i); }
  }

  lemma NextIsFree(versions: seq<Version>, strategy: nat)
    ensures !Taken(versions, strategy, LatestNumber(versions, strategy) + 1)
  {
    if Taken(versions, strategy, LatestNumber(versions, strategy) + 1) {
      var i :| 0 <= i < |versions| && versions[i].strategyId == strategy
        && versions[i].number == LatestNumber(versions, strategy) + 1;
      LatestIsHighest(versions, strategy, i);
    }
  }

  lemma ReadFits(t: Tables, a: Action)
    requires ReadAction(t, a).Some?
    ensures StaleFits(t, ReadAction(t, a).value)
  {}

  /** A serial action is a read and its commit at once; then no unique key refuses it. */
  lemma SerialIsReadCommit(t: Tables, a: Action)
    ensures ReadAction(t, a).None? ==> Step(t, a) == t
    ensures ReadAction(t, a).Some? ==>
      StaleFits(t, ReadAction(t, a).value) && CommitStale(t, ReadAction(t, a).value) == Some(Step(t, a))
  {
    match a
    case DoRegister(input) =>
      var r := ValidateRegister(input);
      if r.Some? {
        var found := FindStrategy(t.strategies, r.value.name);
        if found.Some? { NextIsFree(t.versions, found.value); }
      }
    case DoReview(input) =>
      var r := ValidateReview(input);
      if r.Some? && ReadReview(t, r.value).Some? { SerialReviewsCommit(t, r.value); }
    case DoRetire(_) =>
  }

  // ------------------------------------------------------------------ what a stale review does

  /** Every ACTIVE sibling is one the plan had read as active, so it will be paused. */
  ghost predicate Covered(t: Tables, p: Plan)
    requires Fits(t, p)
  {
    forall i :: 0 <= i < |t.versions| ==> SiblingCovered(t.versions, p.versionId, p.others, i)
  }

  predicate SiblingCovered(versions: seq<Version>, id: nat, others: seq<nat>, i: nat)
    requires id < |versions| && i < |versions|
  {
    i != id && versions[i].strategyId == versions[id].strategyId && versions[i].status == ACTIVE ==> i in others
  }

  /** A rejection always commits; an approval exactly when the siblings active by then are covered. */
  lemma CommitsIff(t: Tables, p: Plan)
    requires Fits(t, p)
    ensures CommitReview(t, p).Some? <==> !p.request.approve || Covered(t, p)
  {
    if p.request.approve {
      var u := PauseAll(Decide(t, p.request), p.others, p.request);
      var strategy := u.versions[p.versionId].strategyId;
      var found := OtherActive(u.versions, strategy, p.versionId);
      PauseAllEffect(Decide(t, p.request), p.others, p.request, p.versionId);
      forall i | 0 <= i < |t.versions| ensures i in found <==> !SiblingCovered(t.versions, p.versionId, p.others, i) {
        PauseAllEffect(Decide(t, p.request), p.others, p.request, i);
        OtherActiveIs(u.versions, strategy, p.versionId, i);
      }
      if found != [] {
        OtherActiveIs(u.versions, strategy, p.versionId, found[0]);
        assert !SiblingCovered(t.versions, p.versionId, p.others, found[0]);
      }
    }
  }

  /** What a commit writes, however stale its plan. */
  lemma CommitEffect(t: Tables, p: Plan, i: nat)
    requires Fits(t, p) && CommitReview(t, p).Some? && i < |t.versions|
    ensures var u, v := CommitReview(t, p).value, t.versions[i];
      && |u.versions| == |t.versions| && u.strategies == t.strategies
      && u.approvals == t.approvals[p.request.approvalId := Decided(t.approvals[p.request.approvalId], p.request)]
      && u.versions[i] ==
         if !p.request.approve then v
         else if i == p.versionId then v.(status := ACTIVE)
         else if i in p.others then Paused(v)
         else v
  {
    if p.request.approve { PauseAllEffect(Decide(t, p.request), p.others, p.request, i); }
  }

  // ------------------------------------------------------------------ who wins

  /** Two approvals read from the same tables: once the first is written the second is refused. */
  lemma SecondApprovalLoses(t: Tables, r1: ReviewRequest, r2: ReviewRequest)
    requires ReadReview(t, r1).Some? && ReadReview(t, r2).Some? && r1.approve && r2.approve
    requires var p1, p2 := ReadReview(t, r1).value, ReadReview(t, r2).value;
      p1.versionId != p2.versionId && t.versions[p1.versionId].strategyId == t.versions[p2.versionId].strategyId
    ensures CommitReview(t, ReadReview(t, r1).value).Some?
    ensures var u := CommitReview(t, ReadReview(t, r1).value).value;
      Fits(u, ReadReview(t, r2).value) && CommitReview(u, ReadReview(t, r2).value) == None
  {
    var p1, p2 := ReadReview(t, r1).value, ReadReview(t, r2).value;
    ApprovalActivates(t, r1, p2.versionId);
    OtherActiveIs(t.versions, t.versions[p2.versionId].strategyId, p2.versionId, p1.versionId);
    WinnerStays(CommitReview(t, p1).value, p1.versionId, p2);
  }

  lemma ApprovalActivates(t: Tables, r: ReviewRequest, i: nat)
    requires ReadReview(t, r).Some? && r.approve && i < |t.versions|
    ensures CommitReview(t, ReadReview(t, r).value).Some?
    ensures var p := ReadReview(t, r).value;
      var u := CommitReview(t, p).value;
      && |u.versions| == |t.versions| && |u.approvals| == |t.approvals|
      && u.versions[p.versionId] == t.versions[p.versionId].(status := ACTIVE)
      && u.versions[i].strategyId == t.versions[i].strategyId
  {
    SerialReviewsCommit(t, r);
    ActivationEffect(t, r, ReadReview(t, r).value.versionId);
    ActivationEffect(t, r, i);
  }

  /** A version the plan did not read as active stays active through its pausing, and blocks it. */
  lemma WinnerStays(u: Tables, winner: nat, p: Plan)
    requires Fits(u, p) && p.request.approve && winner < |u.versions| && winner != p.versionId
    requires u.versions[winner].status == ACTIVE
    requires u.versions[winner].strategyId == u.versions[p.versionId].strategyId
    requires winner !in p.others
    ensures CommitReview(u, p) == None
  {
    var w := PauseAll(Decide(u, p.request), p.others, p.request);
    PauseAllEffect(Decide(u, p.request), p.others, p.request, winner);
    PauseAllEffect(Decide(u, p.request), p.others, p.request, p.versionId);
    OtherActiveIs(w.versions, w.versions[p.versionId].strategyId, p.versionId, winner);
  }

  // ------------------------------------------------------------------ what survives stale commits

  /** A version and its approval: never ACTIVE without a review, never reviewed by the requester. */
  predicate Seen(v: Version, a: Approval, i: nat) {
    && IsDeployApproval(a) && a.entityId == i
    && (a.status == PENDING || (a.reviewedBy.Some? && a.reviewedBy.value != a.requestedBy))
    && (v.status == ACTIVE ==> a.status != PENDING)
  }

  ghost predicate Overseen(t: Tables, base: nat) {
    && |t.approvals| == base + |t.versions|
    && (forall j :: 0 <= j < base ==> !IsDeployApproval(t.approvals[j]))
    && (forall i :: 0 <= i < |t.versions| ==> Seen(t.versions[i], t.approvals[base + i], i))
  }

  /** What stays true of a plan while it waits. */
  ghost predicate PlanKept(t: Tables, base: nat, p: Plan) {
    && Fits(t, p) && WellRead(p)
    && p.request.approvalId == base + p.versionId
    && t.approvals[p.request.approvalId].requestedBy != p.request.actor
  }

  ghost predicate TablesKept(t: Tables, base: nat) {
    Overseen(t, base) && SingleActive(t.versions) && Numbered(t.versions) && Folds(t, base)
  }

  /** What stays true of a read while its commit waits. */
  ghost predicate StaleKept(t: Tables, base: nat, s: Stale) {
    StaleFits(t, s) &&
    match s
    case StaleReview(p) => PlanKept(t, base, p)
    case StaleRetire(_, _, _, _) => true
    case StaleRegister(_, known) =>
      known.Some? ==> 1 <= known.value.number <= CountOf(t.versions, known.value.strategy) + 1
  }

  lemma ReadIsKept(t: Tables, base: nat, r: ReviewRequest)
    requires Overseen(t, base) && ReadReview(t, r).Some?
    ensures PlanKept(t, base, ReadReview(t, r).value)
  {
    ReadIsCurrent(t, r);
    var j := r.approvalId;
    if j >= base { assert Seen(t.versions[j - base], t.approvals[base + (j - base)], j - base); }
  }

  lemma CommitKeepsOverseen(t: Tables, base: nat, p: Plan)
    requires Overseen(t, base) && PlanKept(t, base, p) && CommitReview(t, p).Some?
    ensures Overseen(CommitReview(t, p).value, base)
    ensures SameIdentity(t.versions, CommitReview(t, p).value.versions)
  {
    var u := CommitReview(t, p).value;
    CommitEffect(t, p, p.versionId);
    forall i | 0 <= i < |t.versions|
      ensures Seen(u.versions[i], u.approvals[base + i], i)
      ensures u.versions[i] == t.versions[i].(status := u.versions[i].status)
    {
      CommitEffect(t, p, i);
      assert Seen(t.versions[i], t.approvals[base + i], i);
    }
  }

  lemma ReadActionIsKept(t: Tables, base: nat, a: Action)
    requires Overseen(t, base) && Numbered(t.versions) && ReadAction(t, a).Some?
    ensures StaleKept(t, base, ReadAction(t, a).value)
  {
    match a
    case DoReview(input) => ReadIsKept(t, base, ValidateReview(input).value);
    case DoRetire(_) =>
    case DoRegister(input) =>
      var found := FindStrategy(t.strategies, ValidateRegister(input).value.name);
      if found.Some? { LatestIsCount(t.versions, found.value); }
  }

  lemma ReviewKeepsTables(t: Tables, base: nat, p: Plan)
    requires TablesKept(t, base) && PlanKept(t, base, p) && CommitReview(t, p).Some?
    ensures TablesKept(CommitReview(t, p).value, base)
  {
    CommitKeepsOverseen(t, base, p);
    CommitKeepsSingle(t, p);
    SameIdentityKeepsNumbers(t.versions, CommitReview(t, p).value.versions);
    CommitChainsIff(t, base, p);
  }

  lemma RetireKeepsTables(t: Tables, base: nat, id: nat, seen: VersionStatus, actor: string, reason: Option<string>)
    requires TablesKept(t, base) && id < |t.versions|
    ensures TablesKept(Mark(t, id, seen, RETIRED, actor, reason, None), base)
  {
    var u := Mark(t, id, seen, RETIRED, actor, reason, None);
    DemotionKeepsSingle(t.versions, u.versions);
    SameIdentityKeepsNumbers(t.versions, u.versions);
    MarkFolds(t, base, id, seen, RETIRED, actor, reason, None);
    forall i | 0 <= i < |t.versions| ensures Seen(u.versions[i], u.approvals[base + i], i) {
      assert Seen(t.versions[i], t.approvals[base + i], i);
    }
  }

  /** A number that was next when it was read and is not taken is next still. */
  lemma FreeIsNext(versions: seq<Version>, strategy: nat, number: nat)
    requires Numbered(versions) && 1 <= number <= CountOf(versions, strategy) + 1 && !Taken(versions, strategy, number)
    ensures number == CountOf(versions, strategy) + 1
  {
    if number <= CountOf(versions, strategy) {
      var i := NumberIsBorne(versions, strategy, number);
    }
  }

  lemma EnrollKeepsOverseen(t: Tables, base: nat, r: RegisterRequest, found: Option<nat>, number: nat)
    requires Overseen(t, base) && SingleActive(t.versions)
    ensures Overseen(EnrollUnder(t, r, found, number).0, base)
    ensures SingleActive(EnrollUnder(t, r, found, number).0.versions)
  {
    var u := EnrollUnder(t, r, found, number).0;
    forall i | 0 <= i < |u.versions| ensures Seen(u.versions[i], u.approvals[base + i], i) {
      if i < |t.versions| { assert Seen(t.versions[i], t.approvals[base + i], i); }
    }
  }

  lemma RegisterKeepsTables(t: Tables, base: nat, r: RegisterRequest, known: Option<Known>)
    requires TablesKept(t, base) && StaleKept(t, base, StaleRegister(r, known)) && CommitRegister(t, r, known).Some?
    ensures TablesKept(CommitRegister(t, r, known).value, base)
  {
    if known.Some? {
      var k := known.value;
      FreeIsNext(t.versions, k.strategy, k.number);
      EnrollKeepsOverseen(t, base, r, Some(k.strategy), k.number);
      EnrollFolds(t, base, r, Some(k.strategy), k.number);
      NextRankKeepsNumbers(t.versions, Version(k.strategy, k.number, DRAFT, r.content, r.actor));
    } else {
      EnrollKeepsOverseen(t, base, r, None, NextNumber(t, None));
      EnrollFolds(t, base, r, None, NextNumber(t, None));
      EnrollKeepsNumbers(t, r);
    }
  }

  /** However stale its read, a commit keeps the tables. */
  lemma CommitKeepsTables(t: Tables, base: nat, s: Stale)
    requires TablesKept(t, base) && StaleKept(t, base, s) && CommitStale(t, s).Some?
    ensures TablesKept(CommitStale(t, s).value, base)
  {
    match s
    case StaleReview(p) => ReviewKeepsTables(t, base, p);
    case StaleRetire(id, seen, actor, reason) => RetireKeepsTables(t, base, id, seen, actor, reason);
    case StaleRegister(r, known) => RegisterKeepsTables(t, base, r, known);
  }

  lemma SerialKeepsTables(t: Tables, base: nat, a: Action)
    requires TablesKept(t, base)
    ensures TablesKept(Step(t, a), base)
  {
    SerialIsReadCommit(t, a);
    if ReadAction(t, a).Some? {
      ReadActionIsKept(t, base, a);
      CommitKeepsTables(t, base, ReadAction(t, a).value);
    }
  }

  // ------------------------------------------------------------------ tables only grow

  /** Rows are added and updated, never removed, and who requested what never changes. */
  ghost predicate Grows(t: Tables, u: Tables) {
    && |t.versions| <= |u.versions| && |t.approvals| <= |u.approvals| && |t.strategies| <= |u.strategies|
    && SameIdentity(t.versions, u.versions[..|t.versions|])
    && forall j :: 0 <= j < |t.approvals| ==> u.approvals[j].requestedBy == t.approvals[j].requestedBy
  }

  lemma ReviewGrows(t: Tables, p: Plan)
    requires Fits(t, p) && CommitReview(t, p).Some?
    ensures Grows(t, CommitReview(t, p).value)
  {
    var u := CommitReview(t, p).value;
    CommitEffect(t, p, p.versionId);
    assert u.versions[..|t.versions|] == u.versions;
    forall i | 0 <= i < |t.versions| ensures u.versions[i] == t.versions[i].(status := u.versions[i].status) {
      CommitEffect(t, p, i);
    }
  }

  lemma CommitGrows(t: Tables, s: Stale)
    requires StaleFits(t, s) && CommitStale(t, s).Some?
    ensures Grows(t, CommitStale(t, s).value)
  {
    var u := CommitStale(t, s).value;
    match s
    case StaleReview(p) => ReviewGrows(t, p);
    case StaleRetire(_, _, _, _) => assert u.versions[..|t.versions|] == u.versions;
    case StaleRegister(_, _) => assert u.versions[..|t.versions|] == t.versions;
  }

  lemma SerialGrows(t: Tables, a: Action)
    ensures Grows(t, Step(t, a))
  {
    SerialIsReadCommit(t, a);
    if ReadAction(t, a).Some? {
      CommitGrows(t, ReadAction(t, a).value);
    } else {
      assert t.versions[..|t.versions|] == t.versions;
    }
  }

  lemma FitsLater(t: Tables, u: Tables, s: Stale)
    requires StaleFits(t, s) && Grows(t, u)
    ensures StaleFits(u, s)
  {}

  lemma CountOnlyGrows(t: Tables, u: Tables, strategy: nat)
    requires Grows(t, u)
    ensures CountOf(t.versions, strategy) <= CountOf(u.versions, strategy)
  {
    SameCount(t.versions, u.versions[..|t.versions|], strategy);
    CountGrows(u.versions, strategy, |t.versions|, |u.versions|);
    assert u.versions[..|u.versions|] == u.versions;
  }

  lemma StaleStaysKept(t: Tables, u: Tables, base: nat, s: Stale)
    requires StaleKept(t, base, s) && Grows(t, u)
    ensures StaleKept(u, base, s)
  {
    if s.StaleRegister? && s.known.Some? { CountOnlyGrows(t, u, s.known.value.strategy); }
  }

  // ------------------------------------------------------------------ one ACTIVE version, for any tables

  lemma StaleKeepsSingle(t: Tables, s: Stale)
    requires StaleFits(t, s) && SingleActive(t.versions) && CommitStale(t, s).Some?
    ensures SingleActive(CommitStale(t, s).value.versions)
  {
    match s
    case StaleReview(p) => CommitKeepsSingle(t, p);
    case StaleRetire(_, _, _, _) => DemotionKeepsSingle(t.versions, CommitStale(t, s).value.versions);
    case StaleRegister(_, _) =>
  }

  // ------------------------------------------------------------------ what is shut

  /** Shut, and not ACTIVE by an earlier revival. */
  predicate Closed(t: Tables, base: nat, i: nat) {
    i < |t.versions| && base + i < |t.approvals| && Shut(t, base, i) && t.versions[i].status != ACTIVE
  }

  lemma ReviewKeepsClosed(t: Tables, base: nat, r: ReviewRequest, i: nat)
    requires Overseen(t, base) && Closed(t, base, i) && ReadReview(t, r).Some?
    ensures CommitReview(t, ReadReview(t, r).value).Some?
    ensures Closed(CommitReview(t, ReadReview(t, r).value).value, base, i)
  {
    ReadIsKept(t, base, r);
    SerialReviewsCommit(t, r);
    CommitEffect(t, ReadReview(t, r).value, i);
  }

  lemma SerialKeepsClosed(t: Tables, base: nat, a: Action, i: nat)
    requires Overseen(t, base) && Closed(t, base, i)
    ensures Closed(Step(t, a), base, i)
  {
    match a
    case DoRegister(_) =>
    case DoRetire(_) =>
    case DoReview(input) =>
      var r := ValidateReview(input);
      if r.Some? && ReadReview(t, r.value).Some? { ReviewKeepsClosed(t, base, r.value, i); }
  }

  /** The commits that bring back a version that was shut. */
  ghost predicate Activates(t: Tables, s: Stale, i: nat)
    requires StaleFits(t, s)
  {
    s.StaleReview? && s.plan.versionId == i && s.plan.request.approve && Covered(t, s.plan)
  }

  lemma ReviewOfClosed(t: Tables, base: nat, p: Plan, i: nat)
    requires PlanKept(t, base, p) && Closed(t, base, i)
    ensures CommitReview(t, p).None? ==> !Activates(t, StaleReview(p), i)
    ensures CommitReview(t, p).Some? ==>
      var u := CommitReview(t, p).value;
      && i < |u.versions| && (u.versions[i].status == ACTIVE <==> Activates(t, StaleReview(p), i))
      && (Closed(u, base, i) <==> !Activates(t, StaleReview(p), i))
  {
    CommitsIff(t, p);
    if CommitReview(t, p).Some? { CommitEffect(t, p, i); }
  }

  /** A shut version becomes ACTIVE by a commit exactly when that commit activates it. */
  lemma CommitOfClosed(t: Tables, base: nat, s: Stale, i: nat)
    requires StaleKept(t, base, s) && Closed(t, base, i)
    ensures CommitStale(t, s).None? ==> !Activates(t, s, i)
    ensures CommitStale(t, s).Some? ==>
      var u := CommitStale(t, s).value;
      && i < |u.versions| && (u.versions[i].status == ACTIVE <==> Activates(t, s, i))
      && (Closed(u, base, i) <==> !Activates(t, s, i))
  {
    match s
    case StaleReview(p) => ReviewOfClosed(t, base, p, i);
    case StaleRetire(_, _, _, _) =>
    case StaleRegister(_, _) =>
  }

  /**
   * So finality is not protected against stale reviews: an approval that read its version before the
   * version was retired activates it afterwards, because the commit updates by id alone.
   */
  lemma StaleApprovalRevives(t: Tables, r: ReviewRequest, retire: RetireInput)
    requires ReadReview(t, r).Some? && r.approve
    requires retire.versionId == ReadReview(t, r).value.versionId && Retire(t, retire).1.Ok?
    ensures var p, retired := ReadReview(t, r).value, Retire(t, retire).0;
      && retired.versions[p.versionId].status == RETIRED
      && Fits(retired, p) && Covered(retired, p) && !Current(retired, p)
      && CommitReview(retired, p).Some?
      && CommitReview(retired, p).value.versions[p.versionId].status == ACTIVE
  {
    var p, retired := ReadReview(t, r).value, Retire(t, retire).0;
    var strategy := t.versions[p.versionId].strategyId;
    forall i | 0 <= i < |t.versions| ensures SiblingCovered(retired.versions, p.versionId, p.others, i) {
      OtherActiveIs(t.versions, strategy, p.versionId, i);
    }
    CommitsIff(retired, p);
    CommitEffect(retired, p, p.versionId);
  }

  // ------------------------------------------------------------------ what the log says

  /** The tables still say what the action read, as far as its audit rows repeat it. */
  ghost predicate StillCurrent(t: Tables, s: Stale)
    requires StaleFits(t, s)
  {
    match s
    case StaleReview(p) => Current(t, p)
    case StaleRetire(id, seen, _, _) => t.versions[id].status == seen
    case StaleRegister(_, _) => true
  }

  /** A commit keeps every "before" in the log right exactly when what it read still holds. */
  lemma StaleChainsIff(t: Tables, base: nat, s: Stale)
    requires Folds(t, base) && StaleKept(t, base, s) && CommitStale(t, s).Some?
    ensures Chained(CommitStale(t, s).value.audit) <==> Chained(t.audit) && StillCurrent(t, s)
  {
    match s
    case StaleReview(p) => CommitChainsIff(t, base, p);
    case StaleRetire(id, seen, actor, reason) => MarkChains(t, base, id, seen, RETIRED, actor, reason, None);
    case StaleRegister(r, known) =>
      if known.Some? {
        EnrollFolds(t, base, r, Some(known.value.strategy), known.value.number);
      } else {
        EnrollFolds(t, base, r, None, NextNumber(t, None));
      }
  }

  lemma ReadIsStillCurrent(t: Tables, a: Action)
    requires ReadAction(t, a).Some?
    ensures StaleFits(t, ReadAction(t, a).value) && StillCurrent(t, ReadAction(t, a).value)
  {
    if a.DoReview? { ReadIsCurrent(t, ValidateReview(a.review).value); }
  }

  lemma SerialChains(t: Tables, base: nat, a: Action)
    requires TablesKept(t, base)
    ensures Chained(Step(t, a).audit) <==> Chained(t.audit)
  {
    SerialIsReadCommit(t, a);
    if ReadAction(t, a).Some? {
      ReadActionIsKept(t, base, a);
      ReadIsStillCurrent(t, a);
      StaleChainsIff(t, base, ReadAction(t, a).value);
    }
  }

  // ------------------------------------------------------------------ approvals of ACTIVE versions

  ghost predicate ActivesApproved(t: Tables, base: nat) {
    Overseen(t, base)
    && forall i :: 0 <= i < |t.versions| && t.versions[i].status == ACTIVE ==> t.approvals[base + i].status == APPROVED
  }

  /** A rejection that commits against a version that is ACTIVE by then. */
  predicate RejectsActive(t: Tables, s: Stale)
    requires StaleFits(t, s)
  {
    s.StaleReview? && !s.plan.request.approve && t.versions[s.plan.versionId].status == ACTIVE
  }

  lemma ReviewApproves(t: Tables, base: nat, p: Plan)
    requires PlanKept(t, base, p) && CommitReview(t, p).Some? && ActivesApproved(t, base)
    ensures ActivesApproved(CommitReview(t, p).value, base) <==> !RejectsActive(t, StaleReview(p))
  {
    var u := CommitReview(t, p).value;
    CommitKeepsOverseen(t, base, p);
    CommitEffect(t, p, p.versionId);
    forall i | 0 <= i < |t.versions| && i != p.versionId
      ensures u.approvals[base + i] == t.approvals[base + i]
      ensures u.versions[i].status == ACTIVE ==> t.versions[i].status == ACTIVE
    {
      CommitEffect(t, p, i);
    }
  }

  lemma RetireApproves(t: Tables, base: nat, id: nat, seen: VersionStatus, actor: string, reason: Option<string>)
    requires ActivesApproved(t, base) && id < |t.versions|
    ensures ActivesApproved(Mark(t, id, seen, RETIRED, actor, reason, None), base)
  {
    var u := Mark(t, id, seen, RETIRED, actor, reason, None);
    forall i | 0 <= i < |t.versions| ensures Seen(u.versions[i], u.approvals[base + i], i) {
      assert Seen(t.versions[i], t.approvals[base + i], i);
    }
  }

  lemma EnrollApproves(t: Tables, base: nat, r: RegisterRequest, found: Option<nat>, number: nat)
    requires ActivesApproved(t, base) && SingleActive(t.versions)
    ensures ActivesApproved(EnrollUnder(t, r, found, number).0, base)
  {
    EnrollKeepsOverseen(t, base, r, found, number);
  }

  /** A commit leaves an ACTIVE version without its APPROVED approval exactly when it rejects an ACTIVE version. */
  lemma CommitApproves(t: Tables, base: nat, s: Stale)
    requires StaleKept(t, base, s) && CommitStale(t, s).Some? && ActivesApproved(t, base) && SingleActive(t.versions)
    ensures ActivesApproved(CommitStale(t, s).value, base) <==> !RejectsActive(t, s)
  {
    match s
    case StaleReview(p) => ReviewApproves(t, base, p);
    case StaleRetire(id, seen, actor, reason) => RetireApproves(t, base, id, seen, actor, reason);
    case StaleRegister(r, known) =>
      if known.Some? {
        EnrollApproves(t, base, r, Some(known.value.strategy), known.value.number);
      } else {
        EnrollApproves(t, base, r, None, NextNumber(t, None));
      }
  }

  /** A serial review never rejects an ACTIVE version, because it only reviews DRAFT and pending ones. */
  lemma SerialApproves(t: Tables, base: nat, a: Action)
    requires TablesKept(t, base) && ActivesApproved(t, base)
    ensures ActivesApproved(Step(t, a), base)
  {
    SerialIsReadCommit(t, a);
    if ReadAction(t, a).Some? {
      ReadActionIsKept(t, base, a);
      CommitApproves(t, base, ReadAction(t, a).value);
    }
  }

  /** Two reviews of one approval that both read it pending: the rejection overwrites the approval. */
  lemma StaleRejectionOverwrites(t: Tables, base: nat, r1: ReviewRequest, r2: ReviewRequest)
    requires Overseen(t, base) && ReadReview(t, r1).Some? && ReadReview(t, r2).Some?
    requires r1.approvalId == r2.approvalId && r1.approve && !r2.approve
    ensures CommitReview(t, ReadReview(t, r1).value).Some?
    ensures var p, u := ReadReview(t, r2).value, CommitReview(t, ReadReview(t, r1).value).value;
      && Fits(u, p) && CommitReview(u, p).Some?
      && CommitReview(u, p).value.versions[p.versionId].status == ACTIVE
      && CommitReview(u, p).value.approvals[base + p.versionId].status == REJECTED
      && !Current(u, p)
  {
    var p1, p2 := ReadReview(t, r1).value, ReadReview(t, r2).value;
    SerialReviewsCommit(t, r1);
    ReadIsKept(t, base, r1);
    CommitEffect(t, p1, p1.versionId);
    CommitsIff(CommitReview(t, p1).value, p2);
    CommitEffect(CommitReview(t, p1).value, p2, p1.versionId);
  }
}
