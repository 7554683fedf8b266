/** Who registered a version and who activated it, read off the actions, over every interleaving and serial run. */
module GovernanceActors {
  import opened Wrappers
  import opened Governance
  import opened GovernanceRuns
  import opened GovernanceSafety
  import opened GovernanceCommits
  import opened GovernanceRaces

  // ------------------------------------------------------------------ texts and actors

  /** WhiteSpace and LineTerminator, sections 12.2 and 12.3 of ECMA-262. */
  const SPACES: set<int> := {
    9, 10, 11, 12, 13, 32, 0xA0, 0x1680, 0x2000, 0x2001, 0x2002, 0x2003, 0x2004, 0x2005, 0x2006, 0x2007, 0x2008, 0x2009,
    0x200A, 0x2028, 0x2029, 0x202F, 0x205F, 0x3000, 0xFEFF}

  /** What trimming takes for space is exactly this. */
  lemma SpaceIff(c: char)
    ensures IsSpace(c) <==> c as int in SPACES
  {
  }

  predicate AllSpace(s: string) { forall c :: c in s ==> IsSpace(c) }

  /** Trimming takes the space off both ends and nothing else. */
  lemma {:induction false} TrimIs(s: string) returns (before: string, after: string)
    ensures s == before + Trim(s) + after && AllSpace(before) && AllSpace(after)
    ensures Trim(s) != "" ==> !IsSpace(Trim(s)[0]) && !IsSpace(Trim(s)[|Trim(s)| - 1])
    decreases |s|
  {
    before, after := "", "";
    if s != "" && IsSpace(s[0]) {
      before, after := TrimIs(s[1..]);
      before := [s[0]] + before;
    } else if s != "" && IsSpace(s[|s| - 1]) {
      before, after := TrimIs(s[..|s| - 1]);
      after := after + [s[|s| - 1]];
    }
  }

  function Lower(c: char): char { if 'A' <= c <= 'Z' then c - 'A' + 'a' else c }

  function LowerAll(s: string): string { seq(|s|, i requires 0 <= i < |s| => Lower(s[i])) }

  /** A real operator: not empty, and not one of the demo identities, however they are spelled. */
  predicate IsOperator(actor: string) {
    actor != "" && actor != "system:demo" && !("demo" <= LowerAll(actor))
  }

  lemma ActorIs(value: Option<string>)
    ensures RequireActor(value).Some? <==> value.Some? && IsOperator(Trim(value.value))
    ensures RequireActor(value).Some? ==> RequireActor(value).value == Trim(value.value)
  {
    if value.Some? {
      var a := Trim(value.value);
      var low := LowerAll(a);
      if |a| >= 4 {
        assert "demo" <= low <==> low[0] == 'd' && low[1] == 'e' && low[2] == 'm' && low[3] == 'o';
      }
    }
  }

  // ------------------------------------------------------------------ what a registration leaves

  /** The texts of a list, each trimmed. */
  predicate Trimmed(texts: seq<string>, values: seq<Option<string>>) {
    |texts| == |values| && forall k :: 0 <= k < |values| ==> values[k].Some? && texts[k] == Trim(values[k].value) != ""
  }

  predicate Same(texts: seq<string>, values: seq<Option<string>>) {
    |texts| == |values| && forall k :: 0 <= k < |values| ==> values[k] == Some(texts[k])
  }

  predicate ContentIs(c: Content, input: RegisterInput) {
    && Trimmed(c.sections, input.sections) && input.parameters == Some(c.parameters)
    && input.regimes.Some? && c.regimes != [] && Same(c.regimes, input.regimes.value)
    && input.low == Some(c.low) && input.high == Some(c.high) && 0.0 <= c.low < c.high
  }

  /** Version i and its approval as this registration left them: its actor is creator and requester. */
  predicate RegisteredFrom(t: Tables, base: nat, i: nat, input: RegisterInput) {
    && i < |t.versions| && base + i < |t.approvals|
    && var v, a := t.versions[i], t.approvals[base + i];
       && input.actor.Some? && IsOperator(Trim(input.actor.value))
       && v.createdBy == a.requestedBy == Trim(input.actor.value)
       && input.rationale.Some? && a.rationale == Trim(input.rationale.value) != ""
       && input.strategyName.Some? && v.strategyId < |t.strategies|
       && t.strategies[v.strategyId].name == Trim(input.strategyName.value) != ""
       && ContentIs(v.content, input)
       && a.kind == DEPLOY_APPROVAL && a.entityType == "StrategyVersion" && a.entityId == i
  }

  lemma {:induction false} RequireAllIs(values: seq<Option<string>>)
    ensures RequireAll(values).Some? ==> Trimmed(RequireAll(values).value, values)
  {
    if values != [] { RequireAllIs(values[1..]); }
  }

  lemma {:induction false} TextsAre(values: seq<Option<string>>)
    requires forall r :: r in values ==> r.Some?
    ensures Same(Texts(values), values)
  {
    if values != [] { TextsAre(values[1..]); }
  }

  lemma ValidContent(input: RegisterInput)
    requires ValidateRegister(input).Some?
    ensures ContentIs(ValidateRegister(input).value.content, input)
  {
    RequireAllIs(input.sections);
    forall r | r in input.regimes.value ensures r.Some? { assert RequireText(r).Some?; }
    TextsAre(input.regimes.value);
  }

  lemma ValidRequest(input: RegisterInput)
    requires ValidateRegister(input).Some?
    ensures var r := ValidateRegister(input).value;
      && input.actor.Some? && r.actor == Trim(input.actor.value) && IsOperator(r.actor)
      && input.rationale.Some? && r.rationale == Trim(input.rationale.value) != ""
      && input.strategyName.Some? && r.name == Trim(input.strategyName.value) != ""
  {
    ActorIs(input.actor);
  }

  /** The row a registration adds, under any number. */
  lemma EnrollsFrom(t: Tables, base: nat, input: RegisterInput, found: Option<nat>, number: nat)
    requires ValidateRegister(input).Some? && |t.approvals| == base + |t.versions|
    requires found.Some? ==>
      found.value < |t.strategies| && t.strategies[found.value].name == ValidateRegister(input).value.name
    ensures RegisteredFrom(EnrollUnder(t, ValidateRegister(input).value, found, number).0, base, |t.versions|, input)
  {
    ValidRequest(input);
    ValidContent(input);
  }

  // ------------------------------------------------------------------ rows keep who made them

  /** Rows are added; of the old ones only the statuses and the review of an approval may differ. */
  ghost predicate Extends(t: Tables, u: Tables) {
    && t.strategies <= u.strategies && |t.versions| <= |u.versions| && |t.approvals| <= |u.approvals|
    && (forall i :: 0 <= i < |t.versions| ==> u.versions[i] == t.versions[i].(status := u.versions[i].status))
    && forall j :: 0 <= j < |t.approvals| ==> SameRequest(t.approvals[j], u.approvals[j])
  }

  predicate SameRequest(a: Approval, b: Approval) {
    b == a.(status := b.status, reviewedBy := b.reviewedBy, note := b.note)
  }

  lemma RegisteredStays(t: Tables, u: Tables, base: nat, i: nat, input: RegisterInput)
    requires RegisteredFrom(t, base, i, input) && Extends(t, u)
    ensures RegisteredFrom(u, base, i, input)
  {
    assert SameRequest(t.approvals[base + i], u.approvals[base + i]);
  }

  lemma ExtendsTrans(t: Tables, u: Tables, w: Tables)
    requires Extends(t, u) && Extends(u, w)
    ensures Extends(t, w)
  {
    forall j | 0 <= j < |t.approvals| ensures SameRequest(t.approvals[j], w.approvals[j]) {
      assert SameRequest(t.approvals[j], u.approvals[j]) && SameRequest(u.approvals[j], w.approvals[j]);
    }
  }

  lemma ReviewExtends(t: Tables, p: Plan)
    requires Fits(t, p) && CommitReview(t, p).Some?
    ensures Extends(t, CommitReview(t, p).value)
  {
    var u := CommitReview(t, p).value;
    CommitEffect(t, p, p.versionId);
    forall i | 0 <= i < |t.versions| ensures u.versions[i] == t.versions[i].(status := u.versions[i].status) {
      CommitEffect(t, p, i);
    }
  }

  lemma CommitExtends(t: Tables, s: Stale)
    requires StaleFits(t, s) && CommitStale(t, s).Some?
    ensures Extends(t, CommitStale(t, s).value)
  {
    match s
    case StaleReview(p) => ReviewExtends(t, p);
    case StaleRetire(_, _, _, _) =>
    case StaleRegister(_, _) =>
  }

  lemma SerialExtends(t: Tables, a: Action)
    ensures Extends(t, Step(t, a))
  {
    SerialIsReadCommit(t, a);
    if ReadAction(t, a).Some? { CommitExtends(t, ReadAction(t, a).value); }
  }

  lemma NextExtends(w: World, e: Event)
    requires AllFit(w)
    ensures Extends(w.tables, Next(w, e).tables)
  {
    match e
    case Serial(a) => SerialExtends(w.tables, a);
    case Read(_) =>
    case Commit(k) =>
      if Waits(w, k) && CommitStale(w.tables, w.waiting[k].value).Some? {
        CommitExtends(w.tables, w.waiting[k].value);
      }
  }

  lemma {:induction false} WorldsExtend(worlds: seq<World>, events: seq<Event>, m: nat, n: nat)
    requires Interleaving(worlds, events) && m <= n <= |events|
    ensures Extends(worlds[m].tables, worlds[n].tables)
    decreases n
  {
    if m < n {
      WorldsExtend(worlds, events, m, n - 1);
      assert Steps(worlds, events, n - 1);
      NextExtends(worlds[n - 1], events[n - 1]);
      ExtendsTrans(worlds[m].tables, worlds[n - 1].tables, worlds[n].tables);
    }
  }

  // ------------------------------------------------------------------ where a commit was read

  /** The event at m read what waits. */
  ghost predicate ReadAt(worlds: seq<World>, events: seq<Event>, m: nat, s: Stale) {
    m < |events| && m < |worlds| && events[m].Read? && ReadAction(worlds[m].tables, events[m].action) == Some(s)
  }

  lemma {:induction false} WaitingWasRead(worlds: seq<World>, events: seq<Event>, n: nat, k: nat) returns (m: nat)
    requires Interleaving(worlds, events) && n <= |events| && Waits(worlds[n], k)
    ensures m < n && ReadAt(worlds, events, m, worlds[n].waiting[k].value)
  {
    assert Steps(worlds, events, n - 1);
    if k < |worlds[n - 1].waiting| {
      m := WaitingWasRead(worlds, events, n - 1, k);
    } else {
      m := n - 1;
    }
  }

  // ------------------------------------------------------------------ who registered a version

  ghost predicate RegistersAt(worlds: seq<World>, events: seq<Event>, k: nat, n: nat, i: nat) {
    k < |events| && n < |worlds| && worlds != [] && !events[k].Commit? && events[k].action.DoRegister?
    && RegisteredFrom(worlds[n].tables, |worlds[0].tables.approvals|, i, events[k].action.enroll)
  }

  lemma SerialRegisters(worlds: seq<World>, events: seq<Event>, n: nat, i: nat)
    requires Interleaving(worlds, events) && n < |events| && Fresh(worlds[0].tables) && events[n].Serial?
    requires |worlds[n].tables.versions| <= i < |worlds[n + 1].tables.versions|
    ensures RegistersAt(worlds, events, n, n + 1, i)
  {
    InterleavingsAreKept(worlds, events, n);
    assert Steps(worlds, events, n);
    var t, a := worlds[n].tables, events[n].action;
    SerialIsReadCommit(t, a);
    if a.DoReview? {
      if ReadAction(t, a).Some? { CommitEffect(t, ReadAction(t, a).value.plan, 0); }
    } else if a.DoRegister? {
      var found := FindStrategy(t.strategies, ValidateRegister(a.enroll).value.name);
      EnrollsFrom(t, |worlds[0].tables.approvals|, a.enroll, found, NextNumber(t, found));
    }
  }

  lemma CommitRegisters(worlds: seq<World>, events: seq<Event>, n: nat, i: nat) returns (m: nat)
    requires Interleaving(worlds, events) && n < |events| && Fresh(worlds[0].tables) && events[n].Commit?
    requires |worlds[n].tables.versions| <= i < |worlds[n + 1].tables.versions|
    ensures m < n && RegistersAt(worlds, events, m, n + 1, i)
  {
    InterleavingsAreKept(worlds, events, n);
    assert Steps(worlds, events, n);
    var w, base := worlds[n], |worlds[0].tables.approvals|;
    var s := w.waiting[events[n].k].value;
    m := WaitingWasRead(worlds, events, n, events[n].k);
    WorldsExtend(worlds, events, m, n);
    if s.StaleReview? {
      CommitEffect(w.tables, s.plan, 0);
    } else if s.StaleRegister? {
      var found := if s.known.Some? then Some(s.known.value.strategy) else None;
      var number := if s.known.Some? then s.known.value.number else NextNumber(w.tables, None);
      EnrollsFrom(w.tables, base, events[m].action.enroll, found, number);
    }
  }

  /** On every interleaving every version is what one registration before it asked for, its actor the creator. */
  lemma {:induction false} VersionWasRegistered(worlds: seq<World>, events: seq<Event>, n: nat, i: nat) returns (k: nat)
    requires Interleaving(worlds, events) && n <= |events| && Fresh(worlds[0].tables)
    requires i < |worlds[n].tables.versions|
    ensures k < n && RegistersAt(worlds, events, k, n, i)
  {
    if i < |worlds[n - 1].tables.versions| {
      k := VersionWasRegistered(worlds, events, n - 1, i);
      WorldsExtend(worlds, events, n - 1, n);
      RegisteredStays(worlds[n - 1].tables, worlds[n].tables, |worlds[0].tables.approvals|, i, events[k].action.enroll);
    } else {
      assert Steps(worlds, events, n - 1);
      match events[n - 1]
      case Serial(_) =>
        SerialRegisters(worlds, events, n - 1, i);
        k := n - 1;
      case Commit(_) => k := CommitRegisters(worlds, events, n - 1, i);
      case Read(_) => assert false;
    }
  }

  // ------------------------------------------------------------------ who activated a version

  /** A review by an operator that says "approve" about the approval of version i. */
  predicate Approves(a: Action, base: nat, i: nat) {
    && a.DoReview? && a.review.action == "approve" && a.review.approvalId == base + i
    && a.review.actor.Some? && IsOperator(Trim(a.review.actor.value))
  }

  /** Event k registered version i, event m approved it, and their actors differ. */
  ghost predicate TwoActors(worlds: seq<World>, events: seq<Event>, k: nat, m: nat, n: nat, i: nat) {
    && k < m < n && m < |events| && !events[m].Commit? && RegistersAt(worlds, events, k, n, i)
    && Approves(events[m].action, |worlds[0].tables.approvals|, i)
    && Trim(events[m].action.review.actor.value) != Trim(events[k].action.enroll.actor.value)
  }

  lemma ReviewIs(t: Tables, base: nat, input: ReviewInput, i: nat)
    requires Overseen(t, base) && ValidateReview(input).Some? && ReadReview(t, ValidateReview(input).value).Some?
    requires ValidateReview(input).value.approve && ReadReview(t, ValidateReview(input).value).value.versionId == i
    ensures i < |t.versions| && Approves(DoReview(input), base, i)
    ensures base + i < |t.approvals| && Trim(input.actor.value) != t.approvals[base + i].requestedBy
  {
    ActorIs(input.actor);
    ReadIsKept(t, base, ValidateReview(input).value);
  }

  /** The review read at m approves version i, so someone else had registered it before. */
  lemma ReadingApproves(worlds: seq<World>, events: seq<Event>, m: nat, i: nat) returns (k: nat)
    requires Interleaving(worlds, events) && m < |events| && Fresh(worlds[0].tables)
    requires !events[m].Commit? && events[m].action.DoReview?
    requires ReadAction(worlds[m].tables, events[m].action).Some?
    requires var p := ReadAction(worlds[m].tables, events[m].action).value.plan; p.request.approve && p.versionId == i
    ensures forall n :: m < n <= |events| ==> TwoActors(worlds, events, k, m, n, i)
  {
    var base, input := |worlds[0].tables.approvals|, events[m].action.review;
    InterleavingsAreKept(worlds, events, m);
    ReviewIs(worlds[m].tables, base, input, i);
    k := VersionWasRegistered(worlds, events, m, i);
    forall n | m < n <= |events| ensures TwoActors(worlds, events, k, m, n, i) {
      WorldsExtend(worlds, events, m, n);
      RegisteredStays(worlds[m].tables, worlds[n].tables, base, i, events[k].action.enroll);
    }
  }

  lemma SerialActivates(t: Tables, a: Action, i: nat)
    requires i < |Step(t, a).versions| && Step(t, a).versions[i].status == ACTIVE
    requires i < |t.versions| ==> t.versions[i].status != ACTIVE
    ensures a.DoReview? && ReadAction(t, a).Some?
    ensures ReadAction(t, a).value.plan.request.approve && ReadAction(t, a).value.plan.versionId == i
  {
    SerialIsReadCommit(t, a);
    if a.DoReview? && ReadAction(t, a).Some? {
      var p := ReadAction(t, a).value.plan;
      CommitEffect(t, p, p.versionId);
      CommitEffect(t, p, i);
    }
  }

  lemma CommitActivates(t: Tables, s: Stale, i: nat)
    requires StaleFits(t, s) && CommitStale(t, s).Some?
    requires i < |CommitStale(t, s).value.versions| && CommitStale(t, s).value.versions[i].status == ACTIVE
    requires i < |t.versions| ==> t.versions[i].status != ACTIVE
    ensures s.StaleReview? && s.plan.request.approve && s.plan.versionId == i
  {
    if s.StaleReview? {
      CommitEffect(t, s.plan, s.plan.versionId);
      CommitEffect(t, s.plan, i);
    }
  }

  /** Where a version becomes ACTIVE, a review that approves it has been read. */
  lemma ActivationWasRead(worlds: seq<World>, events: seq<Event>, n: nat, i: nat) returns (m: nat)
    requires Interleaving(worlds, events) && n < |events|
    requires IsActive(worlds[n + 1], i) && !IsActive(worlds[n], i)
    ensures m <= n && !events[m].Commit? && events[m].action.DoReview?
    ensures ReadAction(worlds[m].tables, events[m].action).Some?
    ensures var p := ReadAction(worlds[m].tables, events[m].action).value.plan; p.request.approve && p.versionId == i
  {
    assert Steps(worlds, events, n);
    var w := worlds[n];
    match events[n]
    case Serial(a) =>
      SerialActivates(w.tables, a, i);
      m := n;
    case Commit(k) =>
      CommitActivates(w.tables, w.waiting[k].value, i);
      m := WaitingWasRead(worlds, events, n, k);
    case Read(_) => assert false;
  }

  /**
   * On every interleaving an ACTIVE version was registered by one operator, and approved later, by a review of its
   * own approval, by another.
   */
  lemma {:induction false} ActiveHasTwoActors(worlds: seq<World>, events: seq<Event>, n: nat, i: nat)
      returns (k: nat, m: nat)
    requires Interleaving(worlds, events) && n <= |events| && Fresh(worlds[0].tables)
    requires IsActive(worlds[n], i)
    ensures TwoActors(worlds, events, k, m, n, i)
  {
    if IsActive(worlds[n - 1], i) {
      k, m := ActiveHasTwoActors(worlds, events, n - 1, i);
      WorldsExtend(worlds, events, n - 1, n);
      RegisteredStays(worlds[n - 1].tables, worlds[n].tables, |worlds[0].tables.approvals|, i, events[k].action.enroll);
    } else {
      m := ActivationWasRead(worlds, events, n - 1, i);
      k := ReadingApproves(worlds, events, m, i);
      assert TwoActors(worlds, events, k, m, n, i);
    }
  }

  // ------------------------------------------------------------------ serial runs

  function SerialWorlds(t: Tables, actions: seq<Action>): (worlds: seq<World>)
    ensures |worlds| == |actions| + 1
    ensures forall i :: 0 <= i <= |actions| ==> worlds[i] == World(After(t, actions[..i]), [])
  {
    seq(|actions| + 1, i requires 0 <= i <= |actions| => World(After(t, actions[..i]), []))
  }

  function SerialEvents(actions: seq<Action>): (events: seq<Event>)
    ensures |events| == |actions| && forall i :: 0 <= i < |actions| ==> events[i] == Serial(actions[i])
  {
    seq(|actions|, i requires 0 <= i < |actions| => Serial(actions[i]))
  }

  lemma SerialIsInterleaving(t: Tables, actions: seq<Action>)
    ensures Interleaving(SerialWorlds(t, actions), SerialEvents(actions))
    ensures SerialWorlds(t, actions)[0].tables == t
    ensures SerialWorlds(t, actions)[|actions|].tables == After(t, actions)
  {
    var worlds, events := SerialWorlds(t, actions), SerialEvents(actions);
    assert actions[..|actions|] == actions;
    forall i | 0 <= i < |events| ensures Steps(worlds, events, i) {
      assert actions[..i + 1][..i] == actions[..i];
    }
  }

  /** On every serial run: who registered a version. */
  lemma VersionHasRegistration(t: Tables, actions: seq<Action>, i: nat) returns (k: nat)
    requires Fresh(t) && i < |After(t, actions).versions|
    ensures k < |actions| && actions[k].DoRegister?
    ensures RegisteredFrom(After(t, actions), |t.approvals|, i, actions[k].enroll)
  {
    SerialIsInterleaving(t, actions);
    k := VersionWasRegistered(SerialWorlds(t, actions), SerialEvents(actions), |actions|, i);
  }

  /** On every serial run: the one who approved an ACTIVE version is not the one who registered it. */
  lemma ActiveHasFourEyes(t: Tables, actions: seq<Action>, i: nat) returns (k: nat, m: nat)
    requires Fresh(t) && i < |After(t, actions).versions| && After(t, actions).versions[i].status == ACTIVE
    ensures k < m < |actions| && actions[k].DoRegister? && Approves(actions[m], |t.approvals|, i)
    ensures RegisteredFrom(After(t, actions), |t.approvals|, i, actions[k].enroll)
    ensures Trim(actions[m].review.actor.value) != Trim(actions[k].enroll.actor.value)
  {
    SerialIsInterleaving(t, actions);
    k, m := ActiveHasTwoActors(SerialWorlds(t, actions), SerialEvents(actions), |actions|, i);
  }

  // ------------------------------------------------------------------ what the words of a review do

  /** A review in the words of its input: who, about what, and which of the two words. */
  predicate IsReview(t: Tables, input: ReviewInput) {
    && (input.action == "approve" || input.action == "reject")
    && input.actor.Some? && IsOperator(Trim(input.actor.value))
    && (input.note.Some? ==> input.note.value.Some? && Trim(input.note.value.value) != "")
    && input.approvalId < |t.approvals|
    && var a := t.approvals[input.approvalId];
       && a.status == PENDING && a.kind == DEPLOY_APPROVAL && a.entityType == "StrategyVersion"
       && a.requestedBy != Trim(input.actor.value) && a.entityId < |t.versions|
       && (t.versions[a.entityId].status == DRAFT || t.versions[a.entityId].status == PENDING_DEPLOY_APPROVAL)
  }

  /** Exactly when a review is accepted. */
  lemma ReviewAcceptedIff(t: Tables, input: ReviewInput)
    ensures Review(t, input).1.Ok? <==> IsReview(t, input)
  {
    ActorIs(input.actor);
    var r := ValidateReview(input);
    if r.Some? && ReadReview(t, r.value).Some? { SerialReviewsCommit(t, r.value); }
  }

  /** "approve" ends with the version ACTIVE and the approval APPROVED; "reject" ends the review REJECTED. */
  lemma ReviewDecides(t: Tables, input: ReviewInput)
    requires IsReview(t, input)
    ensures var u, id := Review(t, input).0, t.approvals[input.approvalId].entityId;
      && |u.versions| == |t.versions| && |u.approvals| == |t.approvals|
      && u.approvals[input.approvalId].reviewedBy == Some(Trim(input.actor.value))
      && (input.note.Some? ==> u.approvals[input.approvalId].note == Some(Trim(input.note.value.value)))
      && (input.action == "approve" ==>
            u.versions[id].status == ACTIVE && u.approvals[input.approvalId].status == APPROVED)
      && (input.action == "reject" ==> u.versions == t.versions && u.approvals[input.approvalId].status == REJECTED)
  {
    ReviewAcceptedIff(t, input);
    ActorIs(input.actor);
    var r := ValidateReview(input).value;
    ReviewOutcome(t, r, t.approvals[input.approvalId].entityId);
  }
}
