/** Four-eyes and finality over whole serial runs, the audit log as an event source, and stale reviews. */
module GovernanceSafety {
  import opened Wrappers
  import opened Governance
  import opened GovernanceRuns

  // ------------------------------------------------------------------ versions and their approvals

  predicate IsDeployApproval(a: Approval) {
    a.kind == DEPLOY_APPROVAL && a.entityType == "StrategyVersion"
  }

  /** The version i and the approval registered with it. */
  predicate Paired(v: Version, a: Approval, i: nat) {
    && IsDeployApproval(a) && a.entityId == i
    && (a.status == PENDING || (a.reviewedBy.Some? && a.reviewedBy.value != a.requestedBy))
    && match v.status
       case DRAFT => a.status == PENDING || a.status == REJECTED
       case ACTIVE => a.status == APPROVED
       case PAUSED => a.status == APPROVED
       case RETIRED => true
       case _ => false
  }

  /** Before the first `base` approvals, none of them for a deployment, nothing had been registered. */
  ghost predicate Governed(t: Tables, base: nat) {
    && |t.approvals| == base + |t.versions|
    && (forall j :: 0 <= j < base ==> !IsDeployApproval(t.approvals[j]))
    && (forall i :: 0 <= i < |t.versions| ==> Paired(t.versions[i], t.approvals[base + i], i))
  }

  /** What a review that passed its checks knows in a governed state. */
  lemma ReviewsItsOwnVersion(t: Tables, base: nat, r: ReviewRequest)
    requires Governed(t, base) && ReadReview(t, r).Some?
    ensures var p := ReadReview(t, r).value;
      && r.approvalId == base + p.versionId
      && t.approvals[r.approvalId].status == PENDING && t.approvals[r.approvalId].requestedBy != r.actor
      && t.versions[p.versionId].status == DRAFT
  {
    var j := r.approvalId;
    if j >= base { assert Paired(t.versions[j - base], t.approvals[base + (j - base)], j - base); }
  }

  function Decided(a: Approval, r: ReviewRequest): Approval {
    a.(status := Verdict(r), reviewedBy := Some(r.actor), note := r.note)
  }

  lemma CommitKeepsGoverned(t: Tables, base: nat, r: ReviewRequest)
    requires Governed(t, base) && ReadReview(t, r).Some?
    ensures CommitReview(t, ReadReview(t, r).value).Some?
    ensures Governed(CommitReview(t, ReadReview(t, r).value).value, base)
  {
    var p := ReadReview(t, r).value;
    SerialReviewsCommit(t, r);
    ReviewsItsOwnVersion(t, base, r);
    var u := CommitReview(t, p).value;
    assert u.approvals == t.approvals[r.approvalId := Decided(t.approvals[r.approvalId], r)];
    forall i | 0 <= i < |t.versions| ensures Paired(u.versions[i], u.approvals[base + i], i) {
      assert Paired(t.versions[i], t.approvals[base + i], i);
      if r.approve { ActivationEffect(t, r, i); }
    }
  }

  lemma StepKeepsGoverned(t: Tables, base: nat, a: Action)
    requires Governed(t, base)
    ensures Governed(Step(t, a), base)
  {
    match a
    case DoRegister(input) =>
    case DoReview(input) =>
      var r := ValidateReview(input);
      if r.Some? && ReadReview(t, r.value).Some? {
        CommitKeepsGoverned(t, base, r.value);
      }
    case DoRetire(input) => RetireKeepsGoverned(t, base, input);
  }

  lemma RetireKeepsGoverned(t: Tables, base: nat, input: RetireInput)
    requires Governed(t, base)
    ensures Governed(Retire(t, input).0, base)
  {
    var u := Retire(t, input).0;
    forall i | 0 <= i < |t.versions| ensures Paired(u.versions[i], u.approvals[base + i], i) {
      assert Paired(t.versions[i], t.approvals[base + i], i);
    }
  }

  // ------------------------------------------------------------------ what is final

  /** A version that was paused or retired, or whose deployment was rejected. */
  predicate Shut(t: Tables, base: nat, i: nat)
    requires i < |t.versions| && base + i < |t.approvals|
  {
    t.versions[i].status == PAUSED || t.versions[i].status == RETIRED || t.approvals[base + i].status == REJECTED
  }

  /** From t to u: identities stay, reviews are immutable, and what is shut stays shut. */
  ghost predicate Follows(t: Tables, u: Tables, base: nat) {
    && |t.versions| <= |u.versions| && |t.approvals| <= |u.approvals|
    && SameIdentity(t.versions, u.versions[..|t.versions|])
    && (forall j :: 0 <= j < |t.approvals| && t.approvals[j].status != PENDING ==> u.approvals[j] == t.approvals[j])
    && (forall i :: 0 <= i < |t.versions| && base + i < |t.approvals| && Shut(t, base, i) ==> Shut(u, base, i))
  }

  lemma FollowsTrans(t: Tables, u: Tables, w: Tables, base: nat)
    requires Follows(t, u, base) && Follows(u, w, base)
    ensures Follows(t, w, base)
  {
    forall i | 0 <= i < |t.versions| ensures w.versions[i] == t.versions[i].(status := w.versions[i].status) {
      assert u.versions[..|t.versions|][i] == u.versions[i];
      assert w.versions[..|u.versions|][i] == w.versions[i];
    }
  }

  lemma CommitKeepsShut(t: Tables, base: nat, r: ReviewRequest, i: nat)
    requires Governed(t, base) && ReadReview(t, r).Some? && i < |t.versions|
    ensures CommitReview(t, ReadReview(t, r).value).Some?
    ensures var u := CommitReview(t, ReadReview(t, r).value).value;
      && |u.versions| == |t.versions|
         && u.approvals == t.approvals[r.approvalId := Decided(t.approvals[r.approvalId], r)]
      && u.versions[i] == t.versions[i].(status := u.versions[i].status)
      && (Shut(t, base, i) ==> Shut(u, base, i))
  {
    SerialReviewsCommit(t, r);
    ReviewsItsOwnVersion(t, base, r);
    if r.approve { ActivationEffect(t, r, i); }
  }

  lemma CommitFollows(t: Tables, base: nat, r: ReviewRequest)
    requires Governed(t, base) && ReadReview(t, r).Some?
    ensures CommitReview(t, ReadReview(t, r).value).Some?
    ensures Follows(t, CommitReview(t, ReadReview(t, r).value).value, base)
  {
    ReviewsItsOwnVersion(t, base, r);
    forall i | 0 <= i < |t.versions| { CommitKeepsShut(t, base, r, i); }
    CommitKeepsShut(t, base, r, ReadReview(t, r).value.versionId);
    var u := CommitReview(t, ReadReview(t, r).value).value;
    assert u.versions[..|t.versions|] == u.versions;
  }

  lemma StepFollows(t: Tables, base: nat, a: Action)
    requires Governed(t, base)
    ensures Follows(t, Step(t, a), base)
  {
    assert t.versions[..|t.versions|] == t.versions;
    match a
    case DoRegister(input) => assert Step(t, a).versions[..|t.versions|] == t.versions;
    case DoReview(input) =>
      var r := ValidateReview(input);
      if r.Some? && ReadReview(t, r.value).Some? {
        CommitFollows(t, base, r.value);
      }
    case DoRetire(input) => RetireFollows(t, base, input);
  }

  lemma RetireFollows(t: Tables, base: nat, input: RetireInput)
    ensures Follows(t, Retire(t, input).0, base)
  {
    var u := Retire(t, input).0;
    assert u.versions[..|t.versions|] == u.versions;
  }

  lemma StepKeepsNumbers(t: Tables, base: nat, a: Action)
    requires Governed(t, base) && Numbered(t.versions)
    ensures Numbered(Step(t, a).versions)
  {
    var u := Step(t, a);
    StepFollows(t, base, a);
    if |u.versions| == |t.versions| {
      assert u.versions[..|t.versions|] == u.versions;
      SameIdentityKeepsNumbers(t.versions, u.versions);
    } else {
      EnrollKeepsNumbers(t, ValidateRegister(a.enroll).value);
    }
  }

  // ------------------------------------------------------------------ the audit log

  function FoldVersion(audit: seq<AuditRow>, id: nat): Option<VersionStatus> {
    if audit == [] then None
    else
      var c := audit[|audit| - 1].change;
      if c.VersionChanged? && c.version == id then Some(c.after) else FoldVersion(audit[..|audit| - 1], id)
  }

  function FoldApproval(audit: seq<AuditRow>, id: nat): ApprovalStatus {
    if audit == [] then PENDING
    else
      var c := audit[|audit| - 1].change;
      if c.ApprovalChanged? && c.approval == id then c.becomes else FoldApproval(audit[..|audit| - 1], id)
  }

  /** Each row's "before" is what the rows before it add up to. */
  predicate Chained(audit: seq<AuditRow>) {
    audit == [] || (Chained(audit[..|audit| - 1]) && Continues(audit[..|audit| - 1], audit[|audit| - 1].change))
  }

  predicate Continues(front: seq<AuditRow>, c: Change) {
    match c
    case StrategyCreated(_) => true
    case VersionChanged(id, before, _) => before == FoldVersion(front, id)
    case ApprovalChanged(id, was, _) => was == FoldApproval(front, id)
  }

  /** Folding the rows of each version and approval gives its stored status. */
  ghost predicate Folds(t: Tables, base: nat) {
    VersionsFold(t.audit, t.versions) && ApprovalsFold(t.audit, t.approvals, base)
  }

  ghost predicate Faithful(t: Tables, base: nat) { Chained(t.audit) && Folds(t, base) }

  ghost predicate VersionsFold(audit: seq<AuditRow>, versions: seq<Version>) {
    forall i: nat :: VersionFolds(audit, versions, i)
  }

  predicate VersionFolds(audit: seq<AuditRow>, versions: seq<Version>, i: nat) {
    FoldVersion(audit, i) == if i < |versions| then Some(versions[i].status) else None
  }

  ghost predicate ApprovalsFold(audit: seq<AuditRow>, approvals: seq<Approval>, base: nat) {
    forall j: nat :: j >= base ==> ApprovalFolds(audit, approvals, j)
  }

  predicate ApprovalFolds(audit: seq<AuditRow>, approvals: seq<Approval>, j: nat) {
    FoldApproval(audit, j) == if j < |approvals| then approvals[j].status else PENDING
  }

  lemma FoldAppend(audit: seq<AuditRow>, row: AuditRow, id: nat)
    ensures FoldVersion(audit + [row], id) ==
      if row.change.VersionChanged? && row.change.version == id then Some(row.change.after) else FoldVersion(audit, id)
    ensures FoldApproval(audit + [row], id) ==
      if row.change.ApprovalChanged? && row.change.approval == id then row.change.becomes else FoldApproval(audit, id)
  {
    assert (audit + [row])[..|audit|] == audit;
  }

  lemma ChainedAppend(audit: seq<AuditRow>, row: AuditRow)
    ensures Chained(audit + [row]) <==> Chained(audit) && Continues(audit, row.change)
  {
    assert (audit + [row])[..|audit|] == audit;
  }

  /** The folds keep up with a row that announces what the tables do. */
  lemma FoldsKeepUp(audit: seq<AuditRow>, row: AuditRow, vs: seq<Version>, us: seq<Version>, bs: seq<Approval>,
                    cs: seq<Approval>, base: nat)
    requires VersionsFold(audit, vs) && ApprovalsFold(audit, bs, base)
    requires forall i: nat :: VersionFolds(audit, vs, i) ==> VersionFolds(audit + [row], us, i)
    requires forall j: nat :: j >= base && ApprovalFolds(audit, bs, j) ==> ApprovalFolds(audit + [row], cs, j)
    ensures VersionsFold(audit + [row], us) && ApprovalsFold(audit + [row], cs, base)
  {}

  /** Whatever it says the status was before. */
  lemma MarkFolds(t: Tables, base: nat, id: nat, before: VersionStatus, after: VersionStatus, actor: string,
                  reason: Option<string>, requestId: Option<nat>)
    requires Folds(t, base) && id < |t.versions|
    ensures Folds(Mark(t, id, before, after, actor, reason, requestId), base)
  {
    var row := AuditRow(actor, VersionChanged(id, Some(before), after), reason, requestId);
    var u := Mark(t, id, before, after, actor, reason, requestId);
    forall i: nat | VersionFolds(t.audit, t.versions, i) ensures VersionFolds(u.audit, u.versions, i) {
      FoldAppend(t.audit, row, i);
    }
    forall j: nat | ApprovalFolds(t.audit, t.approvals, j) ensures ApprovalFolds(u.audit, u.approvals, j) {
      FoldAppend(t.audit, row, j);
    }
    FoldsKeepUp(t.audit, row, t.versions, u.versions, t.approvals, u.approvals, base);
  }

  /** The chain survives an update exactly when it names the status it replaces. */
  lemma MarkChains(t: Tables, base: nat, id: nat, before: VersionStatus, after: VersionStatus, actor: string,
                   reason: Option<string>, requestId: Option<nat>)
    requires Folds(t, base) && id < |t.versions|
    ensures Chained(Mark(t, id, before, after, actor, reason, requestId).audit)
      <==> Chained(t.audit) && t.versions[id].status == before
  {
    assert VersionFolds(t.audit, t.versions, id);
    ChainedAppend(t.audit, AuditRow(actor, VersionChanged(id, Some(before), after), reason, requestId));
  }

  lemma MarkIsFaithful(t: Tables, base: nat, id: nat, after: VersionStatus, actor: string, reason: Option<string>,
                       requestId: Option<nat>)
    requires Faithful(t, base) && id < |t.versions|
    ensures Faithful(Mark(t, id, t.versions[id].status, after, actor, reason, requestId), base)
  {
    MarkFolds(t, base, id, t.versions[id].status, after, actor, reason, requestId);
    MarkChains(t, base, id, t.versions[id].status, after, actor, reason, requestId);
  }

  lemma DecideFolds(t: Tables, base: nat, r: ReviewRequest)
    requires Folds(t, base) && base <= r.approvalId < |t.approvals|
    ensures Folds(Decide(t, r), base)
    ensures Chained(Decide(t, r).audit) <==> Chained(t.audit) && t.approvals[r.approvalId].status == PENDING
  {
    var row := AuditRow(r.actor, ApprovalChanged(r.approvalId, PENDING, Verdict(r)), r.note, Some(r.approvalId));
    var u := Decide(t, r);
    assert ApprovalFolds(t.audit, t.approvals, r.approvalId);
    ChainedAppend(t.audit, row);
    forall i: nat | VersionFolds(t.audit, t.versions, i) ensures VersionFolds(u.audit, u.versions, i) {
      FoldAppend(t.audit, row, i);
    }
    forall j: nat | ApprovalFolds(t.audit, t.approvals, j) ensures ApprovalFolds(u.audit, u.approvals, j) {
      FoldAppend(t.audit, row, j);
    }
    FoldsKeepUp(t.audit, row, t.versions, u.versions, t.approvals, u.approvals, base);
  }

  ghost predicate Distinct(ids: seq<nat>) { forall i, j :: 0 <= i < j < |ids| ==> ids[i] != ids[j] }

  ghost predicate AllActive(versions: seq<Version>, ids: seq<nat>)
    requires InRange(ids, |versions|)
  {
    forall k :: 0 <= k < |ids| ==> versions[ids[k]].status == ACTIVE
  }

  /** Pausing keeps the folds, and the chain exactly when every version it pauses is still ACTIVE. */
  lemma {:induction false} PauseAllFolds(t: Tables, base: nat, ids: seq<nat>, r: ReviewRequest)
    requires Folds(t, base) && InRange(ids, |t.versions|) && Distinct(ids)
    ensures Folds(PauseAll(t, ids, r), base)
    ensures Chained(PauseAll(t, ids, r).audit) <==> Chained(t.audit) && AllActive(t.versions, ids)
  {
    if ids != [] {
      var front, last := ids[..|ids| - 1], ids[|ids| - 1];
      PauseAllFolds(t, base, front, r);
      PauseAllEffect(t, front, r, last);
      MarkFolds(PauseAll(t, front, r), base, last, ACTIVE, PAUSED, r.actor, None, Some(r.approvalId));
      MarkChains(PauseAll(t, front, r), base, last, ACTIVE, PAUSED, r.actor, None, Some(r.approvalId));
    }
  }

  lemma {:induction false} OtherActiveDistinct(versions: seq<Version>, strategy: nat, but: nat)
    ensures Distinct(OtherActive(versions, strategy, but))
  {
    if versions != [] {
      OtherActiveDistinct(versions[..|versions| - 1], strategy, but);
    }
  }

  /** A plan that may commit against other tables than it read. */
  ghost predicate WellRead(p: Plan) { p.versionId !in p.others && Distinct(p.others) }

  /** The tables still say what the plan read. */
  ghost predicate Current(t: Tables, p: Plan)
    requires Fits(t, p)
  {
    && t.approvals[p.request.approvalId].status == PENDING
    && (p.request.approve ==> AllActive(t.versions, p.others) && t.versions[p.versionId].status == p.seen)
  }

  /** A commit keeps the folds, and the chain exactly when what it read still holds. */
  lemma CommitChainsIff(t: Tables, base: nat, p: Plan)
    requires Fits(t, p) && WellRead(p) && base <= p.request.approvalId
    requires Folds(t, base) && CommitReview(t, p).Some?
    ensures Folds(CommitReview(t, p).value, base)
    ensures Chained(CommitReview(t, p).value.audit) <==> Chained(t.audit) && Current(t, p)
  {
    var r := p.request;
    DecideFolds(t, base, r);
    if r.approve {
      var paused := PauseAll(Decide(t, r), p.others, r);
      PauseAllFolds(Decide(t, r), base, p.others, r);
      PauseAllEffect(Decide(t, r), p.others, r, p.versionId);
      MarkFolds(paused, base, p.versionId, p.seen, ACTIVE, r.actor, r.note, Some(r.approvalId));
      MarkChains(paused, base, p.versionId, p.seen, ACTIVE, r.actor, r.note, Some(r.approvalId));
    }
  }

  /** What a review has just read is current. */
  lemma ReadIsCurrent(t: Tables, r: ReviewRequest)
    requires ReadReview(t, r).Some?
    ensures WellRead(ReadReview(t, r).value) && Current(t, ReadReview(t, r).value)
  {
    var p := ReadReview(t, r).value;
    var strategy := t.versions[p.versionId].strategyId;
    OtherActiveDistinct(t.versions, strategy, p.versionId);
    OtherActiveIs(t.versions, strategy, p.versionId, p.versionId);
    forall k | 0 <= k < |p.others| ensures t.versions[p.others[k]].status == ACTIVE {
      OtherActiveIs(t.versions, strategy, p.versionId, p.others[k]);
    }
  }

  lemma CommitIsFaithful(t: Tables, base: nat, r: ReviewRequest)
    requires Governed(t, base) && Faithful(t, base) && ReadReview(t, r).Some?
    ensures CommitReview(t, ReadReview(t, r).value).Some?
    ensures Faithful(CommitReview(t, ReadReview(t, r).value).value, base)
  {
    SerialReviewsCommit(t, r);
    ReviewsItsOwnVersion(t, base, r);
    ReadIsCurrent(t, r);
    CommitChainsIff(t, base, ReadReview(t, r).value);
  }

  lemma CreationFolds(t: Tables, base: nat, row: AuditRow)
    requires row.change.StrategyCreated? && Folds(t, base)
    ensures Folds(t.(audit := t.audit + [row]), base)
    ensures Chained(t.audit + [row]) <==> Chained(t.audit)
  {
    ChainedAppend(t.audit, row);
    forall i: nat | VersionFolds(t.audit, t.versions, i) ensures VersionFolds(t.audit + [row], t.versions, i) {
      FoldAppend(t.audit, row, i);
    }
    forall j: nat | ApprovalFolds(t.audit, t.approvals, j) ensures ApprovalFolds(t.audit + [row], t.approvals, j) {
      FoldAppend(t.audit, row, j);
    }
    FoldsKeepUp(t.audit, row, t.versions, t.versions, t.approvals, t.approvals, base);
  }

  lemma DraftFolds(t: Tables, base: nat, v: Version, a: Approval, row: AuditRow)
    requires v.status == DRAFT && a.status == PENDING && row.change == VersionChanged(|t.versions|, None, DRAFT)
    requires Folds(t, base)
    ensures Folds(Tables(t.strategies, t.versions + [v], t.approvals + [a], t.audit + [row]), base)
    ensures Chained(t.audit + [row]) <==> Chained(t.audit)
  {
    var us, bs := t.versions + [v], t.approvals + [a];
    assert VersionFolds(t.audit, t.versions, |t.versions|);
    ChainedAppend(t.audit, row);
    forall i: nat | VersionFolds(t.audit, t.versions, i) ensures VersionFolds(t.audit + [row], us, i) {
      FoldAppend(t.audit, row, i);
    }
    forall j: nat | ApprovalFolds(t.audit, t.approvals, j) ensures ApprovalFolds(t.audit + [row], bs, j) {
      FoldAppend(t.audit, row, j);
    }
    FoldsKeepUp(t.audit, row, t.versions, us, t.approvals, bs, base);
  }

  lemma EnrollFolds(t: Tables, base: nat, r: RegisterRequest, found: Option<nat>, number: nat)
    requires Folds(t, base)
    ensures Folds(EnrollUnder(t, r, found, number).0, base)
    ensures Chained(EnrollUnder(t, r, found, number).0.audit) <==> Chained(t.audit)
  {
    var id := if found.Some? then found.value else |t.strategies|;
    var created := AuditRow(r.actor, StrategyCreated(id), Some(r.rationale), None);
    CreationFolds(t, base, created);
    var named, u := if found.Some? then t else t.(audit := t.audit + [created]), EnrollUnder(t, r, found, number).0;
    DraftFolds(named, base, u.versions[|t.versions|], u.approvals[|t.approvals|],
      AuditRow(r.actor, VersionChanged(|t.versions|, None, DRAFT), Some(r.rationale), Some(|t.approvals|)));
  }

  lemma StepIsFaithful(t: Tables, base: nat, a: Action)
    requires Governed(t, base) && Faithful(t, base)
    ensures Faithful(Step(t, a), base)
  {
    match a
    case DoRegister(input) =>
      if ValidateRegister(input).Some? {
        var found := FindStrategy(t.strategies, ValidateRegister(input).value.name);
        EnrollFolds(t, base, ValidateRegister(input).value, found, NextNumber(t, found));
      }
    case DoReview(input) =>
      var r := ValidateReview(input);
      if r.Some? && ReadReview(t, r.value).Some? {
        CommitIsFaithful(t, base, r.value);
      }
    case DoRetire(input) => RetireIsFaithful(t, base, input);
  }

  lemma RetireIsFaithful(t: Tables, base: nat, input: RetireInput)
    requires Faithful(t, base)
    ensures Faithful(Retire(t, input).0, base)
  {
    var actor, reason, id := RequireActor(input.actor), RequireText(input.reason), input.versionId;
    if actor.Some? && reason.Some? && id < |t.versions| {
      MarkIsFaithful(t, base, id, RETIRED, actor.value, reason, None);
    }
  }

  // ------------------------------------------------------------------ whole runs

  /** Tables without strategies; approvals of other kinds may already be there. */
  ghost predicate Fresh(t: Tables) {
    && t.strategies == [] && t.versions == [] && t.audit == []
    && forall j :: 0 <= j < |t.approvals| ==> !IsDeployApproval(t.approvals[j])
  }

  ghost predicate Sound(t: Tables, base: nat) {
    Governed(t, base) && SingleActive(t.versions) && Numbered(t.versions) && Faithful(t, base)
  }

  lemma FreshIsSound(t: Tables)
    requires Fresh(t)
    ensures Sound(t, |t.approvals|)
  {}

  lemma StepKeepsSound(t: Tables, base: nat, a: Action)
    requires Sound(t, base)
    ensures Sound(Step(t, a), base)
  {
    StepKeepsGoverned(t, base, a);
    StepKeepsSingle(t, a);
    StepKeepsNumbers(t, base, a);
    StepIsFaithful(t, base, a);
  }

  /** One ACTIVE version per strategy, numbers 1..n, four eyes, and an audit log that reproduces every status. */
  lemma {:induction false} RunsAreSound(t: Tables, actions: seq<Action>)
    requires Fresh(t)
    ensures Sound(After(t, actions), |t.approvals|)
  {
    if actions == [] {
      FreshIsSound(t);
    } else {
      RunsAreSound(t, actions[..|actions| - 1]);
      StepKeepsSound(After(t, actions[..|actions| - 1]), |t.approvals|, actions[|actions| - 1]);
    }
  }

  lemma {:induction false} RunsFollow(t: Tables, actions: seq<Action>, k: nat)
    requires Fresh(t) && k <= |actions|
    ensures Follows(After(t, actions[..k]), After(t, actions), |t.approvals|)
    decreases |actions|
  {
    var base := |t.approvals|;
    if k == |actions| {
      assert actions[..k] == actions;
      var u := After(t, actions);
      assert u.versions[..|u.versions|] == u.versions;
    } else {
      var front := actions[..|actions| - 1];
      RunsFollow(t, front, k);
      assert front[..k] == actions[..k];
      RunsAreSound(t, front);
      StepFollows(After(t, front), base, actions[|actions| - 1]);
      FollowsTrans(After(t, actions[..k]), After(t, front), After(t, actions), base);
    }
  }

  /** A rejected, paused or retired version is never ACTIVE again. */
  lemma ShutIsFinal(t: Tables, actions: seq<Action>, k: nat, i: nat)
    requires Fresh(t) && k <= |actions|
    requires var u := After(t, actions[..k]);
      i < |u.versions| && |t.approvals| + i < |u.approvals| && Shut(u, |t.approvals|, i)
    ensures i < |After(t, actions).versions| && After(t, actions).versions[i].status != ACTIVE
  {
    RunsFollow(t, actions, k);
    RunsAreSound(t, actions);
    var w := After(t, actions);
    assert Paired(w.versions[i], w.approvals[|t.approvals| + i], i);
  }

  /** The approval of version i, granted by someone other than its requester. */
  predicate FourEyes(t: Tables, base: nat, i: nat) {
    base + i < |t.approvals| &&
    var a := t.approvals[base + i];
    IsDeployApproval(a) && a.entityId == i && a.status == APPROVED
    && a.reviewedBy.Some? && a.reviewedBy.value != a.requestedBy
  }

  lemma ActiveHasFourEyes(t: Tables, base: nat, i: nat)
    requires Governed(t, base) && i < |t.versions| && t.versions[i].status == ACTIVE
    ensures FourEyes(t, base, i)
  {
    assert Paired(t.versions[i], t.approvals[base + i], i);
  }

  lemma FourEyesStay(t: Tables, u: Tables, base: nat, i: nat)
    requires Follows(t, u, base) && FourEyes(t, base, i)
    ensures FourEyes(u, base, i)
  {}

  /** A version that was ever ACTIVE keeps an approval by someone other than its requester. */
  lemma ActivationsHadFourEyes(t: Tables, actions: seq<Action>, k: nat, i: nat)
    requires Fresh(t) && k <= |actions|
    requires i < |After(t, actions[..k]).versions| && After(t, actions[..k]).versions[i].status == ACTIVE
    ensures FourEyes(After(t, actions), |t.approvals|, i)
  {
    var front := actions[..k];
    RunsFollow(t, actions, k);
    RunsAreSound(t, front);
    ActiveHasFourEyes(After(t, front), |t.approvals|, i);
    FourEyesStay(After(t, front), After(t, actions), |t.approvals|, i);
  }
}
