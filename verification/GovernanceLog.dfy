/** Who wrote each audit row, and what an accepted registration or retirement leaves. */
module GovernanceLog {
  import opened Wrappers
  import opened Governance
  import opened GovernanceRuns
  import opened GovernanceSafety
  import opened GovernanceCommits
  import opened GovernanceRaces
  import opened GovernanceActors

  // ------------------------------------------------------------------ audit rows

  function ActorOf(a: Action): Option<string> {
    match a
    case DoRegister(input) => input.actor
    case DoReview(input) => input.actor
    case DoRetire(input) => input.actor
  }

  /** A text that an action supplied, trimmed. */
  function TextOf(value: Option<string>): Option<string> {
    match value case None => None case Some(text) => Some(Trim(text))
  }

  function NoteOf(note: Option<Option<string>>): Option<string> {
    match note case None => None case Some(value) => TextOf(value)
  }

  /** The row is one of this action's: it names its actor, its reason and what it asked for. */
  predicate Wrote(a: Action, row: AuditRow) {
    ActorOf(a).Some? && row.actor == Trim(ActorOf(a).value) &&
    match row.change
    case StrategyCreated(_) =>
      a.DoRegister? && row.reason == TextOf(a.enroll.rationale) && row.requestId == None
    case VersionChanged(id, before, after) =>
      if before.None? then
        a.DoRegister? && after == DRAFT && row.reason == TextOf(a.enroll.rationale) && row.requestId.Some?
      else if after == RETIRED then
        a.DoRetire? && id == a.retire.versionId && row.reason == TextOf(a.retire.reason) && row.requestId == None
      else
        && a.DoReview? && a.review.action == "approve" && row.requestId == Some(a.review.approvalId)
        && ((before == Some(ACTIVE) && after == PAUSED && row.reason == None)
            || (after == ACTIVE && row.reason == NoteOf(a.review.note)))
    case ApprovalChanged(id, was, becomes) =>
      && a.DoReview? && id == a.review.approvalId && row.requestId == Some(id) && row.reason == NoteOf(a.review.note)
      && was == PENDING
      && ((a.review.action == "approve" && becomes == APPROVED) || (a.review.action == "reject" && becomes == REJECTED))
  }

  /** The log grows by rows of this action only. */
  ghost predicate Adds(before: seq<AuditRow>, after: seq<AuditRow>, a: Action) {
    before <= after && forall j :: |before| <= j < |after| ==> Wrote(a, after[j])
  }

  lemma AddsTrans(a: seq<AuditRow>, b: seq<AuditRow>, c: seq<AuditRow>, action: Action)
    requires Adds(a, b, action) && Adds(b, c, action)
    ensures Adds(a, c, action)
  {
  }

  /** What was read for this action. */
  predicate ReadFor(a: Action, s: Stale) {
    match a
    case DoRegister(input) => s.StaleRegister? && ValidateRegister(input) == Some(s.request)
    case DoReview(input) => s.StaleReview? && ValidateReview(input) == Some(s.plan.request)
    case DoRetire(input) =>
      && s.StaleRetire? && s.id == input.versionId && RequireActor(input.actor) == Some(s.actor)
      && RequireText(input.reason) == s.reason && s.reason.Some?
  }

  lemma ReadsFor(t: Tables, a: Action)
    requires ReadAction(t, a).Some?
    ensures ReadFor(a, ReadAction(t, a).value)
  {
  }

  lemma {:induction false} PausesAdd(t: Tables, ids: seq<nat>, r: ReviewRequest, a: Action)
    requires InRange(ids, |t.versions|) && a.DoReview? && ValidateReview(a.review) == Some(r) && r.approve
    ensures Adds(t.audit, PauseAll(t, ids, r).audit, a)
  {
    if ids != [] {
      PausesAdd(t, ids[..|ids| - 1], r, a);
      ActorIs(a.review.actor);
    }
  }

  lemma ReviewAdds(t: Tables, p: Plan, a: Action)
    requires Fits(t, p) && CommitReview(t, p).Some? && a.DoReview? && ValidateReview(a.review) == Some(p.request)
    ensures Adds(t.audit, CommitReview(t, p).value.audit, a)
  {
    ActorIs(a.review.actor);
    if p.request.approve { PausesAdd(Decide(t, p.request), p.others, p.request, a); }
  }

  lemma RegisterAdds(t: Tables, input: RegisterInput, found: Option<nat>, number: nat)
    requires ValidateRegister(input).Some?
    ensures Adds(t.audit, EnrollUnder(t, ValidateRegister(input).value, found, number).0.audit, DoRegister(input))
  {
    ActorIs(input.actor);
  }

  /** A commit, however stale, writes rows of the action it was read for. */
  lemma CommitAdds(t: Tables, s: Stale, a: Action)
    requires StaleFits(t, s) && ReadFor(a, s) && CommitStale(t, s).Some?
    ensures Adds(t.audit, CommitStale(t, s).value.audit, a)
  {
    match s
    case StaleReview(p) => ReviewAdds(t, p, a);
    case StaleRetire(_, _, _, _) => ActorIs(a.retire.actor);
    case StaleRegister(_, known) =>
      if known.Some? {
        RegisterAdds(t, a.enroll, Some(known.value.strategy), known.value.number);
      } else {
        RegisterAdds(t, a.enroll, None, NextNumber(t, None));
      }
  }

  lemma SerialAdds(t: Tables, a: Action)
    ensures Adds(t.audit, Step(t, a).audit, a)
  {
    SerialIsReadCommit(t, a);
    if ReadAction(t, a).Some? {
      ReadsFor(t, a);
      CommitAdds(t, ReadAction(t, a).value, a);
    }
  }

  /** The event at k started the action that wrote the row. */
  ghost predicate WrittenBy(events: seq<Event>, k: nat, row: AuditRow) {
    k < |events| && !events[k].Commit? && Wrote(events[k].action, row)
  }

  /** Every audit row of every interleaving is by the operator of an action before it, with that action's words. */
  lemma {:induction false} RowWasWritten(worlds: seq<World>, events: seq<Event>, n: nat, j: nat) returns (k: nat)
    requires Interleaving(worlds, events) && n <= |events| && worlds[0].tables.audit == []
    requires j < |worlds[n].tables.audit|
    ensures k < n && WrittenBy(events, k, worlds[n].tables.audit[j])
  {
    assert Steps(worlds, events, n - 1);
    var w := worlds[n - 1];
    match events[n - 1]
    case Serial(a) =>
      SerialAdds(w.tables, a);
      if j < |w.tables.audit| { k := RowWasWritten(worlds, events, n - 1, j); } else { k := n - 1; }
    case Read(_) => k := RowWasWritten(worlds, events, n - 1, j);
    case Commit(c) =>
      if Waits(w, c) && CommitStale(w.tables, w.waiting[c].value).Some? {
        var m := WaitingWasRead(worlds, events, n - 1, c);
        ReadsFor(worlds[m].tables, events[m].action);
        CommitAdds(w.tables, w.waiting[c].value, events[m].action);
        if j < |w.tables.audit| { k := RowWasWritten(worlds, events, n - 1, j); } else { k := m; }
      } else {
        k := RowWasWritten(worlds, events, n - 1, j);
      }
  }

  // ------------------------------------------------------------------ registrations and retirements

  predicate IsText(value: Option<string>) { value.Some? && Trim(value.value) != "" }

  /** A registration in the words of its input. */
  predicate IsRegistration(input: RegisterInput) {
    && IsText(input.strategyName) && IsText(input.rationale)
    && input.actor.Some? && IsOperator(Trim(input.actor.value))
    && (forall v :: v in input.sections ==> IsText(v)) && input.parameters.Some?
    && input.regimes.Some? && input.regimes.value != [] && (forall r :: r in input.regimes.value ==> IsText(r))
    && input.low.Some? && input.high.Some? && 0.0 <= input.low.value < input.high.value
  }

  lemma {:induction false} RequireAllIff(values: seq<Option<string>>)
    ensures RequireAll(values).Some? <==> forall v :: v in values ==> IsText(v)
  {
    if values != [] {
      RequireAllIff(values[1..]);
      assert values == [values[0]] + values[1..];
      assert RequireAll(values).Some? <==> IsText(values[0]) && RequireAll(values[1..]).Some?;
      assert values[0] in values && forall v :: v in values[1..] ==> v in values;
    }
  }

  lemma ValidIff(input: RegisterInput)
    ensures ValidateRegister(input).Some? <==> IsRegistration(input)
  {
    RequireAllIff(input.sections);
    ActorIs(input.actor);
    if input.regimes.Some? {
      assert (exists r :: r in input.regimes.value && RequireText(r).None?)
        <==> !(forall r :: r in input.regimes.value ==> IsText(r));
    }
  }

  /**
   * Exactly when a registration is accepted. It leaves a DRAFT with the next number and a PENDING approval, as its
   * receipt says, under a strategy that is created exactly if none has the name.
   */
  lemma RegisterAcceptedIff(t: Tables, base: nat, input: RegisterInput)
    requires |t.approvals| == base + |t.versions|
    ensures Register(t, input).1.Ok? <==> IsRegistration(input)
    ensures Register(t, input).1.Ok? ==>
      var u, done, n := Register(t, input).0, Register(t, input).1.value, |t.versions|;
      && |u.versions| == n + 1 && done.versionId == n && done.approvalId == base + n
      && RegisteredFrom(u, base, n, input)
      && u.versions[n].status == DRAFT && u.approvals[base + n].status == PENDING
      && u.approvals[base + n].reviewedBy == None
      && u.versions[n].number == done.number && u.versions[n].strategyId == done.strategyId
      && (done.created <==>
            forall i :: 0 <= i < |t.strategies| ==> t.strategies[i].name != Trim(input.strategyName.value))
      && |u.strategies| == |t.strategies| + (if done.created then 1 else 0)
      && (done.created ==> u.strategies[|t.strategies|].createdBy == Trim(input.actor.value))
  {
    ValidIff(input);
    if IsRegistration(input) {
      ValidRequest(input);
      var found := FindStrategy(t.strategies, ValidateRegister(input).value.name);
      EnrollsFrom(t, base, input, found, NextNumber(t, found));
    }
  }

  /** Exactly when a retirement is accepted; it retires the version it names and touches nothing else. */
  lemma RetireAcceptedIff(t: Tables, input: RetireInput)
    ensures Retire(t, input).1.Ok? <==>
      && input.actor.Some? && IsOperator(Trim(input.actor.value)) && IsText(input.reason)
      && input.versionId < |t.versions| && t.versions[input.versionId].status != RETIRED
    ensures Retire(t, input).1.Ok? ==>
      var u, id := Retire(t, input).0, input.versionId;
      && u.versions == t.versions[id := t.versions[id].(status := RETIRED)]
      && u.approvals == t.approvals && u.strategies == t.strategies && Retire(t, input).1.value == id
  {
    ActorIs(input.actor);
  }
}
