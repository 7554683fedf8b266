/** What every serial run of governance actions keeps, starting from tables without strategies. */
module GovernanceRuns {
  import opened Wrappers
  import opened Governance

  datatype Action = DoRegister(enroll: RegisterInput) | DoReview(review: ReviewInput) | DoRetire(retire: RetireInput)

  function Step(t: Tables, a: Action): Tables {
    match a
    case DoRegister(input) => Register(t, input).0
    case DoReview(input) => Review(t, input).0
    case DoRetire(input) => Retire(t, input).0
  }

  predicate Accepted(t: Tables, a: Action) {
    match a
    case DoRegister(input) => Register(t, input).1.Ok?
    case DoReview(input) => Review(t, input).1.Ok?
    case DoRetire(input) => Retire(t, input).1.Ok?
  }

  function After(t: Tables, actions: seq<Action>): Tables {
    if actions == [] then t else Step(After(t, actions[..|actions| - 1]), actions[|actions| - 1])
  }

  method Perform(db: Database, a: Action) returns (accepted: bool)
    modifies db
    ensures db.Contents() == Step(old(db.Contents()), a) && accepted == Accepted(old(db.Contents()), a)
  {
    match a
    case DoRegister(input) =>
      var r := db.RegisterStrategyVersion(input);
      accepted := r.Ok?;
    case DoReview(input) =>
      var r := db.ReviewDeployApproval(input);
      accepted := r.Ok?;
    case DoRetire(input) =>
      var r := db.RetireStrategyVersion(input);
      accepted := r.Ok?;
  }

  /** The database object after the actions of a serial run. */
  method PerformAll(db: Database, actions: seq<Action>)
    modifies db
    ensures db.Contents() == After(old(db.Contents()), actions)
  {
    ghost var start := db.Contents();
    for i := 0 to |actions|
      invariant db.Contents() == After(start, actions[..i])
    {
      assert actions[..i + 1][..i] == actions[..i];
      var _ := Perform(db, actions[i]);
    }
    assert actions[..|actions|] == actions;
  }

  lemma {:induction false} PauseAllLogs(t: Tables, ids: seq<nat>, r: ReviewRequest)
    requires InRange(ids, |t.versions|)
    ensures |PauseAll(t, ids, r).audit| == |t.audit| + |ids|
  {
    if ids != [] { PauseAllLogs(t, ids[..|ids| - 1], r); }
  }

  /** A refused action changes neither the tables nor the audit log; an accepted one is always logged. */
  lemma RefusedIffUnchanged(t: Tables, a: Action)
    ensures !Accepted(t, a) <==> Step(t, a) == t
    ensures Accepted(t, a) ==> |Step(t, a).audit| > |t.audit|
  {
    if a.DoReview? {
      var r := ValidateReview(a.review);
      if r.Some? && ReadReview(t, r.value).Some? {
        PauseAllLogs(Decide(t, r.value), ReadReview(t, r.value).value.others, r.value);
      }
    }
  }

  // ------------------------------------------------------------------ what the queries and the loop do

  lemma {:induction false} OtherActiveIs(versions: seq<Version>, strategy: nat, but: nat, i: nat)
    ensures i in OtherActive(versions, strategy, but) <==>
      i < |versions| && i != but && versions[i].strategyId == strategy && versions[i].status == ACTIVE
  {
    if versions != [] {
      OtherActiveIs(versions[..|versions| - 1], strategy, but, i);
    }
  }

  function Paused(v: Version): Version { v.(status := PAUSED) }

  lemma {:induction false} PauseAllEffect(t: Tables, ids: seq<nat>, r: ReviewRequest, i: nat)
    requires InRange(ids, |t.versions|) && i < |t.versions|
    ensures PauseAll(t, ids, r).versions[i] == if i in ids then Paused(t.versions[i]) else t.versions[i]
  {
    if ids != [] {
      var front, last := ids[..|ids| - 1], ids[|ids| - 1];
      PauseAllEffect(t, front, r, i);
      assert i in ids <==> i in front || i == last;
    }
  }

  /** The versions after an approval that read the tables it writes. */
  lemma ActivationEffect(t: Tables, r: ReviewRequest, i: nat)
    requires ReadReview(t, r).Some? && r.approve && i < |t.versions|
    ensures var p := ReadReview(t, r).value;
      var u := PauseAll(Decide(t, r), p.others, r);
      u.versions[i] ==
        if i != p.versionId && t.versions[i].strategyId == t.versions[p.versionId].strategyId
            && t.versions[i].status == ACTIVE
        then Paused(t.versions[i]) else t.versions[i]
  {
    var p := ReadReview(t, r).value;
    PauseAllEffect(Decide(t, r), p.others, r, i);
    OtherActiveIs(t.versions, t.versions[p.versionId].strategyId, p.versionId, i);
  }

  /** In a serial run the partial unique index never refuses an activation. */
  lemma SerialReviewsCommit(t: Tables, r: ReviewRequest)
    requires ReadReview(t, r).Some?
    ensures CommitReview(t, ReadReview(t, r).value).Some?
  {
    if r.approve {
      var p := ReadReview(t, r).value;
      var u := PauseAll(Decide(t, r), p.others, r);
      var strategy := u.versions[p.versionId].strategyId;
      ActivationEffect(t, r, p.versionId);
      if OtherActive(u.versions, strategy, p.versionId) != [] {
        var i := OtherActive(u.versions, strategy, p.versionId)[0];
        OtherActiveIs(u.versions, strategy, p.versionId, i);
        ActivationEffect(t, r, i);
      }
    }
  }

  /**
   * What an accepted review does to each version: the approved one becomes ACTIVE, every other ACTIVE one of
   * its strategy PAUSED, all else is untouched; a rejection touches none. Of the approvals only its own changes.
   */
  lemma ReviewOutcome(t: Tables, r: ReviewRequest, i: nat)
    requires ReadReview(t, r).Some? && i < |t.versions|
    ensures CommitReview(t, ReadReview(t, r).value).Some?
    ensures var p := ReadReview(t, r).value;
      var u := CommitReview(t, p).value;
      var v, w := t.versions[i], t.versions[p.versionId];
      && |u.versions| == |t.versions| && u.strategies == t.strategies
      && u.versions[i] ==
         (if !r.approve then v
          else if i == p.versionId then v.(status := ACTIVE)
          else if v.strategyId == w.strategyId && v.status == ACTIVE then v.(status := PAUSED)
          else v)
      && u.approvals == t.approvals[r.approvalId :=
           t.approvals[r.approvalId].(status := Verdict(r), reviewedBy := Some(r.actor), note := r.note)]
  {
    SerialReviewsCommit(t, r);
    if r.approve { ActivationEffect(t, r, i); }
  }

  // ------------------------------------------------------------------ one ACTIVE version per strategy

  ghost predicate SingleActive(versions: seq<Version>) {
    forall i, j :: 0 <= i < j < |versions| && versions[i].status == ACTIVE && versions[j].status == ACTIVE ==>
      versions[i].strategyId != versions[j].strategyId
  }

  /** Demoting versions cannot break it. */
  lemma DemotionKeepsSingle(vs: seq<Version>, us: seq<Version>)
    requires SingleActive(vs) && |vs| == |us|
    requires forall i :: 0 <= i < |vs| ==> us[i].strategyId == vs[i].strategyId
    requires forall i :: 0 <= i < |vs| && us[i].status == ACTIVE ==> vs[i].status == ACTIVE
    ensures SingleActive(us)
  {}

  lemma PauseAllDemotes(t: Tables, ids: seq<nat>, r: ReviewRequest)
    requires InRange(ids, |t.versions|) && SingleActive(t.versions)
    ensures SingleActive(PauseAll(t, ids, r).versions)
  {
    var u := PauseAll(t, ids, r);
    forall i | 0 <= i < |t.versions|
      ensures u.versions[i].strategyId == t.versions[i].strategyId
      ensures u.versions[i].status == ACTIVE ==> t.versions[i].status == ACTIVE
    {
      PauseAllEffect(t, ids, r, i);
    }
    DemotionKeepsSingle(t.versions, u.versions);
  }

  /** An activation the index lets through keeps it, whatever the review had read. */
  lemma GuardedActivationKeepsSingle(vs: seq<Version>, id: nat)
    requires SingleActive(vs) && id < |vs| && !IndexConflict(vs, id)
    ensures SingleActive(vs[id := vs[id].(status := ACTIVE)])
  {
    forall i | 0 <= i < |vs| && i != id && vs[i].strategyId == vs[id].strategyId ensures vs[i].status != ACTIVE {
      OtherActiveIs(vs, vs[id].strategyId, id, i);
    }
  }

  lemma CommitKeepsSingle(t: Tables, p: Plan)
    requires Fits(t, p) && SingleActive(t.versions)
    ensures CommitReview(t, p).Some? ==> SingleActive(CommitReview(t, p).value.versions)
  {
    if p.request.approve {
      var u := PauseAll(Decide(t, p.request), p.others, p.request);
      PauseAllDemotes(Decide(t, p.request), p.others, p.request);
      if !IndexConflict(u.versions, p.versionId) {
        GuardedActivationKeepsSingle(u.versions, p.versionId);
      }
    }
  }

  lemma StepKeepsSingle(t: Tables, a: Action)
    requires SingleActive(t.versions)
    ensures SingleActive(Step(t, a).versions)
  {
    match a
    case DoReview(input) =>
      var r := ValidateReview(input);
      if r.Some? && ReadReview(t, r.value).Some? {
        CommitKeepsSingle(t, ReadReview(t, r.value).value);
      }
    case _ =>
  }

  // ------------------------------------------------------------------ version numbers

  function CountOf(versions: seq<Version>, strategy: nat): nat {
    if versions == [] then 0
    else CountOf(versions[..|versions| - 1], strategy) + if versions[|versions| - 1].strategyId == strategy then 1
        else 0
  }

  /** Each version's number is its rank among the versions of its strategy. */
  ghost predicate Numbered(versions: seq<Version>) {
    forall i :: 0 <= i < |versions| ==> NumberedAt(versions, i)
  }

  ghost predicate NumberedAt(versions: seq<Version>, i: nat)
    requires i < |versions|
  {
    versions[i].number == CountOf(versions[..i], versions[i].strategyId) + 1
  }

  lemma NumberedFront(versions: seq<Version>, n: nat)
    requires Numbered(versions) && n <= |versions|
    ensures Numbered(versions[..n])
  {
    forall i | 0 <= i < n ensures NumberedAt(versions[..n], i) {
      assert NumberedAt(versions, i) && versions[..n][..i] == versions[..i];
    }
  }

  lemma {:induction false} LatestIsCount(versions: seq<Version>, strategy: nat)
    requires Numbered(versions)
    ensures LatestNumber(versions, strategy) == CountOf(versions, strategy)
  {
    if versions != [] {
      NumberedFront(versions, |versions| - 1);
      LatestIsCount(versions[..|versions| - 1], strategy);
      assert NumberedAt(versions, |versions| - 1);
    }
  }

  /** Every number from 1 to n is borne by a version of the strategy ... */
  lemma {:induction false} NumberIsBorne(versions: seq<Version>, strategy: nat, number: nat) returns (i: nat)
    requires Numbered(versions) && 1 <= number <= CountOf(versions, strategy)
    ensures i < |versions| && versions[i].strategyId == strategy && versions[i].number == number
  {
    var n := |versions| - 1;
    if versions[n].strategyId == strategy && number == CountOf(versions, strategy) {
      assert NumberedAt(versions, n);
      i := n;
    } else {
      NumberedFront(versions, n);
      i := NumberIsBorne(versions[..n], strategy, number);
    }
  }

  lemma {:induction false} CountGrows(versions: seq<Version>, strategy: nat, i: nat, j: nat)
    requires i <= j <= |versions|
    ensures CountOf(versions[..i], strategy) <= CountOf(versions[..j], strategy)
    decreases j
  {
    if i < j {
      CountGrows(versions, strategy, i, j - 1);
      assert versions[..j][..j - 1] == versions[..j - 1];
    }
  }

  /** ... and no two versions of a strategy share a number, none beyond n. */
  lemma NumbersAreDistinct(versions: seq<Version>, i: nat, j: nat)
    requires Numbered(versions) && i < j < |versions| && versions[i].strategyId == versions[j].strategyId
    ensures 1 <= versions[i].number < versions[j].number <= CountOf(versions, versions[j].strategyId)
  {
    var s := versions[j].strategyId;
    assert NumberedAt(versions, i) && NumberedAt(versions, j);
    assert versions[..i + 1][..i] == versions[..i] && versions[..j + 1][..j] == versions[..j];
    CountGrows(versions, s, i + 1, j);
    CountGrows(versions, s, j + 1, |versions|);
    assert versions[..|versions|] == versions;
  }

  /** Numbering only looks at strategy ids and numbers. */
  lemma {:induction false} SameCount(vs: seq<Version>, us: seq<Version>, strategy: nat)
    requires |vs| == |us| && forall i :: 0 <= i < |vs| ==> us[i].strategyId == vs[i].strategyId
    ensures CountOf(us, strategy) == CountOf(vs, strategy)
  {
    if vs != [] {
      SameCount(vs[..|vs| - 1], us[..|us| - 1], strategy);
    }
  }

  ghost predicate SameIdentity(vs: seq<Version>, us: seq<Version>) {
    |vs| == |us| && forall i :: 0 <= i < |vs| ==> us[i] == vs[i].(status := us[i].status)
  }

  lemma SameIdentityKeepsNumbers(vs: seq<Version>, us: seq<Version>)
    requires Numbered(vs) && SameIdentity(vs, us)
    ensures Numbered(us)
  {
    forall i | 0 <= i < |us| ensures NumberedAt(us, i) {
      assert NumberedAt(vs, i);
      SameCount(vs[..i], us[..i], vs[i].strategyId);
    }
  }

  /** A new version whose number is the next rank of its strategy keeps the numbering. */
  lemma NextRankKeepsNumbers(versions: seq<Version>, v: Version)
    requires Numbered(versions) && v.number == CountOf(versions, v.strategyId) + 1
    ensures Numbered(versions + [v])
  {
    var us, n := versions + [v], |versions|;
    forall i | 0 <= i <= n ensures NumberedAt(us, i) {
      if i < n { assert NumberedAt(versions, i); }
      assert us[..i] == versions[..i];
    }
    assert us[..n] == versions;
  }

  lemma EnrollKeepsNumbers(t: Tables, r: RegisterRequest)
    requires Numbered(t.versions)
    ensures Numbered(Enroll(t, r).0.versions)
  {
    var v := Enroll(t, r).0.versions[|t.versions|];
    LatestIsCount(t.versions, v.strategyId);
    NextRankKeepsNumbers(t.versions, v);
  }
}
