/** The governance transactions of apps/web/src/lib/governance-actions.ts. Row ids are positions in their table. */
module Governance {
  import opened Wrappers

  datatype VersionStatus =
    | DRAFT | BACKTESTING | BACKTEST_APPROVED | PENDING_DEPLOY_APPROVAL | ACTIVE | PAUSED | DEGRADED | RETIRED

  datatype ApprovalStatus = PENDING | APPROVED | REJECTED | WITHDRAWN

  datatype ApprovalKind =
    | BACKTEST_APPROVAL | DEPLOY_APPROVAL | PARAMETER_CHANGE | RISK_ADJUSTMENT
    | RISK_MODE_DEESCALATION | AI_RECOMMENDATION | ALLOCATION_PLAN

  datatype Strategy = Strategy(name: string, createdBy: string)

  /** The mandatory governance fields; `parameters` is an opaque JSON object. */
  datatype Content = Content(sections: seq<string>, parameters: string, regimes: seq<string>, low: real, high: real)

  datatype Version = Version(strategyId: nat, number: nat, status: VersionStatus, content: Content, createdBy: string)

  datatype Approval = Approval(
    kind: ApprovalKind, entityType: string, entityId: nat, status: ApprovalStatus,
    rationale: string, requestedBy: string, reviewedBy: Option<string>, note: Option<string>)

  datatype Change =
    | StrategyCreated(strategy: nat)
    | VersionChanged(version: nat, before: Option<VersionStatus>, after: VersionStatus)
    | ApprovalChanged(approval: nat, was: ApprovalStatus, becomes: ApprovalStatus)

  datatype AuditRow = AuditRow(actor: string, change: Change, reason: Option<string>, requestId: Option<nat>)

  datatype Tables = Tables(
    strategies: seq<Strategy>, versions: seq<Version>, approvals: seq<Approval>, audit: seq<AuditRow>)

  /** `Invalid` is a validation error (400) and `Conflict` a conflict error (409). */
  datatype Result<T> = Ok(value: T) | Invalid | Conflict

  // ------------------------------------------------------------------ validation

  predicate IsSpace(c: char) {
    || 9 as char <= c <= 13 as char || c == ' ' || c == '\U{A0}' || c == '\U{1680}' || '\U{2000}' <= c <= '\U{200A}'
    || c == '\U{2028}' || c == '\U{2029}' || c == '\U{202F}' || c == '\U{205F}' || c == '\U{3000}' || c == '\U{FEFF}'
  }

  function Trim(s: string): string {
    if s == [] then s
    else if IsSpace(s[0]) then Trim(s[1..])
    else if IsSpace(s[|s| - 1]) then Trim(s[..|s| - 1])
    else s
  }

  /** requireText; None stands for a value that is not a string. */
  function RequireText(value: Option<string>): Option<string> {
    if value.None? || Trim(value.value) == "" then None else Some(Trim(value.value))
  }

  predicate StartsWithDemo(s: string) {
    |s| >= 4 && s[0] in "dD" && s[1] in "eE" && s[2] in "mM" && s[3] in "oO"
  }

  function RequireActor(value: Option<string>): Option<string> {
    var actor := RequireText(value);
    if actor.None? || actor.value == "system:demo" || StartsWithDemo(actor.value) then None else actor
  }

  datatype RegisterInput = RegisterInput(
    strategyName: Option<string>, actor: Option<string>, rationale: Option<string>,
    sections: seq<Option<string>>, parameters: Option<string>,
    regimes: Option<seq<Option<string>>>, low: Option<real>, high: Option<real>)

  datatype RegisterRequest = RegisterRequest(name: string, actor: string, rationale: string, content: Content)

  /** All texts trimmed, or None as soon as one is missing. */
  function RequireAll(values: seq<Option<string>>): Option<seq<string>> {
    if values == [] then Some([])
    else
      var first, rest := RequireText(values[0]), RequireAll(values[1..]);
      if first.None? || rest.None? then None else Some([first.value] + rest.value)
  }

  function Texts(values: seq<Option<string>>): seq<string> {
    if values == [] then [] else (if values[0].Some? then [values[0].value] else []) + Texts(values[1..])
  }

  function ValidateRegister(input: RegisterInput): Option<RegisterRequest> {
    var name, actor, rationale :=
        RequireText(input.strategyName), RequireActor(input.actor), RequireText(input.rationale);
    var sections := RequireAll(input.sections);
    if name.None? || actor.None? || rationale.None? || sections.None? || input.parameters.None? then None
    else if input.regimes.None? || input.regimes.value == [] then None
    else if exists r :: r in input.regimes.value && RequireText(r).None? then None
    else if input.low.None? || input.high.None? || input.low.value < 0.0 || input.low.value >= input.high.value
        then None
    else
      var content := Content(
        sections.value, input.parameters.value, Texts(input.regimes.value), input.low.value, input.high.value);
      Some(RegisterRequest(name.value, actor.value, rationale.value, content))
  }

  /** `note` is None when absent and Some(None) when it is not a string. */
  datatype ReviewInput = ReviewInput(
    approvalId: nat, action: string, actor: Option<string>, note: Option<Option<string>>)

  datatype ReviewRequest = ReviewRequest(approvalId: nat, approve: bool, actor: string, note: Option<string>)

  function ValidateReview(input: ReviewInput): Option<ReviewRequest> {
    var actor := RequireActor(input.actor);
    var note := if input.note.None? then None else RequireText(input.note.value);
    if input.action != "approve" && input.action != "reject" then None
    else if actor.None? || (input.note.Some? && note.None?) then None
    else Some(ReviewRequest(input.approvalId, input.action == "approve", actor.value, note))
  }

  // ------------------------------------------------------------------ queries

  function FindStrategy(strategies: seq<Strategy>, name: string): (at: Option<nat>)
    ensures at.Some? ==> at.value < |strategies| && strategies[at.value].name == name
    ensures at.None? ==> forall i :: 0 <= i < |strategies| ==> strategies[i].name != name
  {
    if strategies == [] then None
    else if strategies[|strategies| - 1].name == name then Some(|strategies| - 1)
    else FindStrategy(strategies[..|strategies| - 1], name)
  }

  predicate InRange(ids: seq<nat>, n: nat) { forall k :: 0 <= k < |ids| ==> ids[k] < n }

  /** The highest version number of a strategy, 0 if it has none. */
  function LatestNumber(versions: seq<Version>, strategy: nat): nat {
    if versions == [] then 0
    else
      var front, last := LatestNumber(versions[..|versions| - 1], strategy), versions[|versions| - 1];
      if last.strategyId == strategy && last.number > front then last.number else front
  }

  /** The ids of the ACTIVE versions of a strategy, other than one. */
  function OtherActive(versions: seq<Version>, strategy: nat, but: nat): (ids: seq<nat>)
    ensures InRange(ids, |versions|)
  {
    if versions == [] then []
    else
      var n := |versions| - 1;
      OtherActive(versions[..n], strategy, but)
      + if n != but && versions[n].strategyId == strategy && versions[n].status == ACTIVE then [n] else []
  }

  // ------------------------------------------------------------------ the transactions, as functions

  datatype Registered = Registered(strategyId: nat, created: bool, versionId: nat, number: nat, approvalId: nat)

  /** A strategy found by name, or a new one, with a version of the given number and its approval. */
  function EnrollUnder(t: Tables, r: RegisterRequest, found: Option<nat>, number: nat): (Tables, Registered) {
    var id := if found.Some? then found.value else |t.strategies|;
    var versionId, approvalId := |t.versions|, |t.approvals|;
    (Tables(
       if found.Some? then t.strategies else t.strategies + [Strategy(r.name, r.actor)],
       t.versions + [Version(id, number, DRAFT, r.content, r.actor)],
       t.approvals + [
         Approval(DEPLOY_APPROVAL, "StrategyVersion", versionId, PENDING, r.rationale, r.actor, None, None)],
       (if found.Some? then t.audit
        else t.audit + [AuditRow(r.actor, StrategyCreated(id), Some(r.rationale), None)])
       + [AuditRow(r.actor, VersionChanged(versionId, None, DRAFT), Some(r.rationale), Some(approvalId))]),
     Registered(id, found.None?, versionId, number, approvalId))
  }

  /** The next number of a strategy, found or about to be created. */
  function NextNumber(t: Tables, found: Option<nat>): nat {
    LatestNumber(t.versions, if found.Some? then found.value else |t.strategies|) + 1
  }

  function Enroll(t: Tables, r: RegisterRequest): (Tables, Registered) {
    var found := FindStrategy(t.strategies, r.name);
    EnrollUnder(t, r, found, NextNumber(t, found))
  }

  function Register(t: Tables, input: RegisterInput): (Tables, Result<Registered>) {
    match ValidateRegister(input)
    case None => (t, Invalid)
    case Some(r) => var (after, receipt) := Enroll(t, r); (after, Ok(receipt))
  }

  /** What a review has read when it starts to write. */
  datatype Plan = Plan(request: ReviewRequest, versionId: nat, seen: VersionStatus, others: seq<nat>)

  predicate Fits(t: Tables, p: Plan) {
    && p.request.approvalId < |t.approvals| && p.versionId < |t.versions|
    && InRange(p.others, |t.versions|)
  }

  /** The checks of a review, in order; None is a conflict. */
  function ReadReview(t: Tables, r: ReviewRequest): (p: Option<Plan>)
    ensures p.Some? ==> Fits(t, p.value) && p.value.request == r
  {
    if r.approvalId >= |t.approvals| then None
    else
      var a := t.approvals[r.approvalId];
      if a.status != PENDING then None
      else if a.kind != DEPLOY_APPROVAL || a.entityType != "StrategyVersion" then None
      else if a.requestedBy == r.actor then None
      else if a.entityId >= |t.versions| then None
      else
        var v := t.versions[a.entityId];
        if v.status != DRAFT && v.status != PENDING_DEPLOY_APPROVAL then None
        else Some(Plan(r, a.entityId, v.status, OtherActive(t.versions, v.strategyId, a.entityId)))
  }

  function Verdict(r: ReviewRequest): ApprovalStatus { if r.approve then APPROVED else REJECTED }

  /** The update of the approval row and its audit row. */
  function Decide(t: Tables, r: ReviewRequest): (after: Tables)
    requires r.approvalId < |t.approvals|
    ensures after.versions == t.versions && after.strategies == t.strategies && |after.approvals| == |t.approvals|
  {
    t.(approvals := t.approvals[r.approvalId :=
         t.approvals[r.approvalId].(status := Verdict(r), reviewedBy := Some(r.actor), note := r.note)],
       audit :=
           t.audit + [AuditRow(r.actor, ApprovalChanged(r.approvalId, PENDING, Verdict(r)), r.note,
               Some(r.approvalId))])
  }

  /** One status update of a version with its audit row. */
  function Mark(t: Tables, id: nat, before: VersionStatus, after: VersionStatus, actor: string, reason: Option<string>,
                requestId: Option<nat>): (u: Tables)
    requires id < |t.versions|
    ensures |u.versions| == |t.versions| && u.approvals == t.approvals && u.strategies == t.strategies
  {
    t.(versions := t.versions[id := t.versions[id].(status := after)],
       audit := t.audit + [AuditRow(actor, VersionChanged(id, Some(before), after), reason, requestId)])
  }

  /** The loop that pauses the versions the review found active. */
  function PauseAll(t: Tables, ids: seq<nat>, r: ReviewRequest): (u: Tables)
    requires InRange(ids, |t.versions|)
    ensures |u.versions| == |t.versions| && u.approvals == t.approvals && u.strategies == t.strategies
  {
    if ids == [] then t
    else Mark(PauseAll(t, ids[..|ids| - 1], r), ids[|ids| - 1], ACTIVE, PAUSED, r.actor, None, Some(r.approvalId))
  }

  /** What the partial unique index forbids for an update of this version to ACTIVE. */
  predicate IndexConflict(versions: seq<Version>, id: nat)
    requires id < |versions|
  {
    OtherActive(versions, versions[id].strategyId, id) != []
  }

  /** The writes of a review against whatever the tables hold by then; None if the index refuses the activation. */
  function CommitReview(t: Tables, p: Plan): Option<Tables>
    requires Fits(t, p)
  {
    var decided := Decide(t, p.request);
    if !p.request.approve then Some(decided)
    else
      var paused := PauseAll(decided, p.others, p.request);
      if IndexConflict(paused.versions, p.versionId) then None
      else Some(Mark(paused, p.versionId, p.seen, ACTIVE, p.request.actor, p.request.note, Some(p.request.approvalId)))
  }

  datatype Reviewed = Reviewed(approvalId: nat, approve: bool, versionId: nat, status: VersionStatus, paused: seq<nat>)

  function Receipt(p: Plan): Reviewed {
    if p.request.approve then Reviewed(p.request.approvalId, true, p.versionId, ACTIVE, p.others)
    else Reviewed(p.request.approvalId, false, p.versionId, p.seen, [])
  }

  function Review(t: Tables, input: ReviewInput): (Tables, Result<Reviewed>) {
    match ValidateReview(input)
    case None => (t, Invalid)
    case Some(r) =>
      match ReadReview(t, r)
      case None => (t, Conflict)
      case Some(p) =>
        match CommitReview(t, p)
        case None => (t, Conflict)
        case Some(after) => (after, Ok(Receipt(p)))
  }

  datatype RetireInput = RetireInput(versionId: nat, actor: Option<string>, reason: Option<string>)

  function Retire(t: Tables, input: RetireInput): (Tables, Result<nat>) {
    var actor, reason, id := RequireActor(input.actor), RequireText(input.reason), input.versionId;
    if actor.None? || reason.None? then (t, Invalid)
    else if id >= |t.versions| || t.versions[id].status == RETIRED then (t, Conflict)
    else (Mark(t, id, t.versions[id].status, RETIRED, actor.value, reason, None), Ok(id))
  }

  // ------------------------------------------------------------------ the database

  class Database {
    var strategies: seq<Strategy>
    var versions: seq<Version>
    var approvals: seq<Approval>
    var audit: seq<AuditRow>

    function Contents(): Tables
      reads this
    {
      Tables(strategies, versions, approvals, audit)
    }

    constructor (approvals: seq<Approval>)
      ensures Contents() == Tables([], [], approvals, [])
    {
      strategies, versions, this.approvals, audit := [], [], approvals, [];
    }

    method RegisterStrategyVersion(input: RegisterInput) returns (result: Result<Registered>)
      modifies this
      ensures (Contents(), result) == Register(old(Contents()), input)
    {
      var valid := ValidateRegister(input);
      if valid.None? {
        return Invalid;
      }
      var r := valid.value;
      var existing := FindStrategy(strategies, r.name);
      var id := |strategies|;
      if existing.Some? {
        id := existing.value;
      } else {
        strategies := strategies + [Strategy(r.name, r.actor)];
        audit := audit + [AuditRow(r.actor, StrategyCreated(id), Some(r.rationale), None)];
      }
      var number := LatestNumber(versions, id) + 1;
      var versionId := |versions|;
      versions := versions + [Version(id, number, DRAFT, r.content, r.actor)];
      var approvalId := |approvals|;
      approvals := approvals + [
        Approval(DEPLOY_APPROVAL, "StrategyVersion", versionId, PENDING, r.rationale, r.actor, None, None)];
      audit := audit + [AuditRow(r.actor, VersionChanged(versionId, None, DRAFT), Some(r.rationale), Some(approvalId))];
      return Ok(Registered(id, existing.None?, versionId, number, approvalId));
    }

    method UpdateVersion(id: nat, before: VersionStatus, after: VersionStatus, actor: string, reason: Option<string>,
                         requestId: Option<nat>)
      requires id < |versions|
      modifies this`versions, this`audit
      ensures Contents() == Mark(old(Contents()), id, before, after, actor, reason, requestId)
    {
      versions := versions[id := versions[id].(status := after)];
      audit := audit + [AuditRow(actor, VersionChanged(id, Some(before), after), reason, requestId)];
    }

    method PauseOthers(others: seq<nat>, r: ReviewRequest)
      requires InRange(others, |versions|)
      modifies this`versions, this`audit
      ensures Contents() == PauseAll(old(Contents()), others, r)
    {
      ghost var start := Contents();
      for k := 0 to |others|
        invariant |versions| == |start.versions|
        invariant Contents() == PauseAll(start, others[..k], r)
      {
        UpdateVersion(others[k], ACTIVE, PAUSED, r.actor, None, Some(r.approvalId));
        assert others[..k + 1][..k] == others[..k];
      }
      assert others[..|others|] == others;
    }

    method ReviewDeployApproval(input: ReviewInput) returns (result: Result<Reviewed>)
      modifies this
      ensures (Contents(), result) == Review(old(Contents()), input)
    {
      var valid := ValidateReview(input);
      if valid.None? {
        return Invalid;
      }
      var r := valid.value;
      var read := ReadReview(Contents(), r);
      if read.None? {
        return Conflict;
      }
      var p, before := read.value, Contents();
      approvals := approvals[r.approvalId :=
        approvals[r.approvalId].(status := Verdict(r), reviewedBy := Some(r.actor), note := r.note)];
      audit :=
          audit + [AuditRow(r.actor, ApprovalChanged(r.approvalId, PENDING, Verdict(r)), r.note, Some(r.approvalId))];
      if r.approve {
        PauseOthers(p.others, r);
        if IndexConflict(versions, p.versionId) {
          strategies, versions, approvals, audit := before.strategies, before.versions, before.approvals, before.audit;
          return Conflict;
        }
        UpdateVersion(p.versionId, p.seen, ACTIVE, r.actor, r.note, Some(r.approvalId));
      }
      return Ok(Receipt(p));
    }

    method RetireStrategyVersion(input: RetireInput) returns (result: Result<nat>)
      modifies this
      ensures (Contents(), result) == Retire(old(Contents()), input)
    {
      var actor, reason := RequireActor(input.actor), RequireText(input.reason);
      if actor.None? || reason.None? {
        return Invalid;
      }
      if input.versionId >= |versions| || versions[input.versionId].status == RETIRED {
        return Conflict;
      }
      UpdateVersion(input.versionId, versions[input.versionId].status, RETIRED, actor.value, reason, None);
      return Ok(input.versionId);
    }
  }
}
