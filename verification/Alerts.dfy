/** The alert rules and the alert table of apps/web/src/lib/ops-alerts.ts. */
module Alerts {
  import opened Wrappers

  datatype RuleId =
    | DbUnreachable | RedisUnreachable | QuantUnreachable
    | TicksStale | FeaturesStale | SignalsStale | ExecutionStale

  datatype Severity = INFO | WARNING | CRITICAL | EMERGENCY

  /** A firing rule; the human-readable message is a function of the rule and the lag. */
  datatype Firing = Firing(rule: RuleId, severity: Severity, lag: Option<int>)

  datatype ComponentKey = Database | Redis | Quant | OtherComponent(name: string)
  datatype ComponentStatus = Healthy | Degraded | Failing | UnknownStatus
  datatype Component = Component(key: ComponentKey, status: ComponentStatus)

  datatype StreamKey = MarketTick | FeatureSnapshot | EngineSignal | Execution | OtherStream(name: string)
  datatype Stream = Stream(key: StreamKey, observable: bool, lagSeconds: Option<int>)

  datatype Snapshot = Snapshot(components: seq<Component>, streams: seq<Stream>)

  datatype StaleRule = StaleRule(stream: StreamKey, rule: RuleId, limitSec: int)

  const STALE_RULES: seq<StaleRule> := [
    StaleRule(MarketTick, TicksStale, 60), StaleRule(FeatureSnapshot, FeaturesStale, 60),
    StaleRule(EngineSignal, SignalsStale, 120), StaleRule(Execution, ExecutionStale, 300)]

  // ------------------------------------------------------------------ evaluateAlertRules

  function FindComponent(cs: seq<Component>, key: ComponentKey): Option<Component> {
    if cs == [] then None else if cs[0].key == key then Some(cs[0]) else FindComponent(cs[1..], key)
  }

  function FindStream(ss: seq<Stream>, key: StreamKey): Option<Stream> {
    if ss == [] then None else if ss[0].key == key then Some(ss[0]) else FindStream(ss[1..], key)
  }

  predicate Down(snapshot: Snapshot, key: ComponentKey) {
    var c := FindComponent(snapshot.components, key);
    c.Some? && c.value.status == Failing
  }

  /** A stream that is observable and silent, or silent for longer than its limit. */
  predicate Stale(snapshot: Snapshot, key: StreamKey, limitSec: int) {
    var s := FindStream(snapshot.streams, key);
    s.Some? && s.value.observable && (s.value.lagSeconds.None? || s.value.lagSeconds.value > limitSec)
  }

  /** When each rule is meant to fire. */
  predicate Fires(snapshot: Snapshot, rule: RuleId) {
    match rule
    case DbUnreachable => Down(snapshot, Database)
    case RedisUnreachable => Down(snapshot, Redis)
    case QuantUnreachable => Down(snapshot, Quant)
    case TicksStale => Stale(snapshot, MarketTick, 60)
    case FeaturesStale => Stale(snapshot, FeatureSnapshot, 60)
    case SignalsStale => Stale(snapshot, EngineSignal, 120)
    case ExecutionStale => Stale(snapshot, Execution, 300)
  }

  function SeverityOf(rule: RuleId): Severity {
    match rule
    case DbUnreachable => CRITICAL
    case RedisUnreachable => CRITICAL
    case QuantUnreachable => CRITICAL
    case _ => WARNING
  }

  /** The lag a firing reports: that of its stream, for the rules about streams. */
  function LagOf(snapshot: Snapshot, rule: RuleId): Option<int> {
    match rule
    case TicksStale => StreamLag(snapshot, MarketTick)
    case FeaturesStale => StreamLag(snapshot, FeatureSnapshot)
    case SignalsStale => StreamLag(snapshot, EngineSignal)
    case ExecutionStale => StreamLag(snapshot, Execution)
    case _ => None
  }

  function StreamLag(snapshot: Snapshot, key: StreamKey): Option<int> {
    var s := FindStream(snapshot.streams, key);
    if s.Some? then s.value.lagSeconds else None
  }

  /** What a rule contributes when it fires. */
  function FiringOf(snapshot: Snapshot, rule: RuleId): Firing { Firing(rule, SeverityOf(rule), LagOf(snapshot, rule)) }

  predicate OncePerRule(firing: seq<Firing>) {
    forall i, j :: 0 <= i < j < |firing| ==> firing[i].rule != firing[j].rule
  }

  predicate HasRule(firing: seq<Firing>, rule: RuleId) {
    exists i :: 0 <= i < |firing| && firing[i].rule == rule
  }

  /** The position of a rule in the order of evaluation. */
  function Rank(rule: RuleId): nat {
    match rule
    case DbUnreachable => 0
    case RedisUnreachable => 1
    case QuantUnreachable => 2
    case TicksStale => 3
    case FeaturesStale => 4
    case SignalsStale => 5
    case ExecutionStale => 6
  }

  /** Infrastructure comes first, then the streams in the order of the data flow. */
  lemma RankOrders(rule: RuleId, other: RuleId)
    ensures Rank(rule) == Rank(other) <==> rule == other
    ensures SeverityOf(rule) == CRITICAL && SeverityOf(other) == WARNING ==> Rank(rule) < Rank(other)
    ensures Rank(DbUnreachable) < Rank(RedisUnreachable) < Rank(QuantUnreachable)
    ensures Rank(TicksStale) < Rank(FeaturesStale) < Rank(SignalsStale) < Rank(ExecutionStale)
  {
  }

  /** The rules of rank below n have been evaluated. */
  ghost predicate EvaluatedTo(firing: seq<Firing>, snapshot: Snapshot, n: nat) {
    && (forall i :: 0 <= i < |firing| ==> Rank(firing[i].rule) < n)
    && (forall i, j :: 0 <= i < j < |firing| ==> Rank(firing[i].rule) < Rank(firing[j].rule))
    && (forall i :: 0 <= i < |firing| ==> firing[i] == FiringOf(snapshot, firing[i].rule))
    && (forall rule :: Rank(rule) < n ==> (HasRule(firing, rule) <==> Fires(snapshot, rule)))
  }

  lemma Evaluate(firing: seq<Firing>, snapshot: Snapshot, f: Firing, n: nat)
    requires EvaluatedTo(firing, snapshot, n) && Rank(f.rule) == n && f == FiringOf(snapshot, f.rule)
    ensures Fires(snapshot, f.rule) ==> EvaluatedTo(firing + [f], snapshot, n + 1)
    ensures !Fires(snapshot, f.rule) ==> EvaluatedTo(firing, snapshot, n + 1)
  {
    var more := firing + [f];
    assert more[|firing|] == f;
    forall rule | HasRule(firing, rule) ensures HasRule(more, rule) {
      var i :| 0 <= i < |firing| && firing[i].rule == rule;
      assert more[i].rule == rule;
    }
  }

  lemma EvaluatedAll(firing: seq<Firing>, snapshot: Snapshot)
    requires EvaluatedTo(firing, snapshot, 7)
    ensures OncePerRule(firing)
    ensures forall rule :: HasRule(firing, rule) <==> Fires(snapshot, rule)
  {
    forall rule ensures HasRule(firing, rule) <==> Fires(snapshot, rule) {
      assert Rank(rule) < 7;
    }
  }

  lemma StaleRuleAt(snapshot: Snapshot, k: nat)
    requires k < |STALE_RULES|
    ensures Rank(STALE_RULES[k].rule) == 3 + k && SeverityOf(STALE_RULES[k].rule) == WARNING
    ensures LagOf(snapshot, STALE_RULES[k].rule) == StreamLag(snapshot, STALE_RULES[k].stream)
    ensures Fires(snapshot, STALE_RULES[k].rule) <==> Stale(snapshot, STALE_RULES[k].stream, STALE_RULES[k].limitSec)
  {
    assert k == 0 || k == 1 || k == 2 || k == 3;
  }

  method EvaluateComponents(snapshot: Snapshot) returns (firing: seq<Firing>)
    ensures EvaluatedTo(firing, snapshot, 3)
  {
    firing := [];
    Evaluate(firing, snapshot, Firing(DbUnreachable, CRITICAL, None), 0);
    if Down(snapshot, Database) {
      firing := firing + [Firing(DbUnreachable, CRITICAL, None)];
    }
    Evaluate(firing, snapshot, Firing(RedisUnreachable, CRITICAL, None), 1);
    if Down(snapshot, Redis) {
      firing := firing + [Firing(RedisUnreachable, CRITICAL, None)];
    }
    Evaluate(firing, snapshot, Firing(QuantUnreachable, CRITICAL, None), 2);
    if Down(snapshot, Quant) {
      firing := firing + [Firing(QuantUnreachable, CRITICAL, None)];
    }
  }

  /** The firing rules, each once, in the order of evaluation, with its severity and its stream's lag. */
  method EvaluateAlertRules(snapshot: Snapshot) returns (firing: seq<Firing>)
    ensures OncePerRule(firing)
    ensures forall rule :: HasRule(firing, rule) <==> Fires(snapshot, rule)
    ensures forall i :: 0 <= i < |firing| ==> firing[i] == FiringOf(snapshot, firing[i].rule)
    ensures forall i, j :: 0 <= i < j < |firing| ==> Rank(firing[i].rule) < Rank(firing[j].rule)
  {
    firing := EvaluateComponents(snapshot);
    for k := 0 to |STALE_RULES|
      invariant EvaluatedTo(firing, snapshot, 3 + k)
    {
      var rule := STALE_RULES[k];
      var s := FindStream(snapshot.streams, rule.stream);
      StaleRuleAt(snapshot, k);
      Evaluate(firing, snapshot, Firing(rule.rule, WARNING, if s.Some? then s.value.lagSeconds else None), 3 + k);
      if s.Some? && s.value.observable {
        if s.value.lagSeconds.None? {
          firing := firing + [Firing(rule.rule, WARNING, None)];
        } else if s.value.lagSeconds.value > rule.limitSec {
          firing := firing + [Firing(rule.rule, WARNING, s.value.lagSeconds)];
        }
      }
    }
    EvaluatedAll(firing, snapshot);
  }

  /** One stream on its own: silence or a lag beyond its limit raises its one rule, a warning that gives the lag. */
  lemma OneStream(key: StreamKey, lag: Option<int>)
    ensures var snapshot := Snapshot([], [Stream(key, true, lag)]);
      && (Fires(snapshot, TicksStale) <==> key.MarketTick? && (lag.None? || lag.value > 60))
      && (Fires(snapshot, FeaturesStale) <==> key.FeatureSnapshot? && (lag.None? || lag.value > 60))
      && (Fires(snapshot, SignalsStale) <==> key.EngineSignal? && (lag.None? || lag.value > 120))
      && (Fires(snapshot, ExecutionStale) <==> key.Execution? && (lag.None? || lag.value > 300))
      && (forall rule :: Fires(snapshot, rule) ==> FiringOf(snapshot, rule) == Firing(rule, WARNING, lag))
      && forall rule :: !Fires(Snapshot([], [Stream(key, false, lag)]), rule)
  {
    forall k, observable ensures FindStream([Stream(key, observable, lag)], k)
      == if k == key then Some(Stream(key, observable, lag)) else None
    {
      assert [Stream(key, observable, lag)][1..] == [];
    }
  }

  /** One component on its own: failing raises its one rule, a critical one without a lag. */
  lemma OneComponent(key: ComponentKey, status: ComponentStatus)
    ensures var snapshot := Snapshot([Component(key, status)], []);
      && (Fires(snapshot, DbUnreachable) <==> key.Database? && status.Failing?)
      && (Fires(snapshot, RedisUnreachable) <==> key.Redis? && status.Failing?)
      && (Fires(snapshot, QuantUnreachable) <==> key.Quant? && status.Failing?)
      && forall rule :: Fires(snapshot, rule) ==> FiringOf(snapshot, rule) == Firing(rule, CRITICAL, None)
  {
    forall k
      ensures FindComponent([Component(key, status)], k) == if k == key then Some(Component(key, status)) else None
    {
      assert [Component(key, status)][1..] == [];
    }
  }

  // ------------------------------------------------------------------ the alert table

  datatype Row = Row(firing: Firing, active: bool, firstSeen: int, lastSeen: int, resolvedAt: Option<int>)

  predicate IsActive(row: Row, rule: RuleId) { row.active && row.firing.rule == rule }

  function Bumped(row: Row, f: Firing, now: int): Row {
    if IsActive(row, f.rule) then row.(firing := f, lastSeen := now) else row
  }

  /** `updateMany` on the active rows of a rule. */
  function BumpAll(rows: seq<Row>, f: Firing, now: int): seq<Row> {
    if rows == [] then [] else BumpAll(rows[..|rows| - 1], f, now) + [Bumped(rows[|rows| - 1], f, now)]
  }

  predicate AnyActive(rows: seq<Row>, rule: RuleId) {
    rows != [] && (IsActive(rows[|rows| - 1], rule) || AnyActive(rows[..|rows| - 1], rule))
  }

  function Upsert(rows: seq<Row>, f: Firing, now: int): seq<Row> {
    if AnyActive(rows, f.rule) then BumpAll(rows, f, now) else rows + [Row(f, true, now, now, None)]
  }

  function UpsertAll(rows: seq<Row>, firing: seq<Firing>, now: int): seq<Row> {
    if firing == [] then rows
    else Upsert(UpsertAll(rows, firing[..|firing| - 1], now), firing[|firing| - 1], now)
  }

  function Resolved(row: Row, firing: seq<Firing>, now: int): Row {
    if row.active && !HasRule(firing, row.firing.rule) then row.(active := false, resolvedAt := Some(now)) else row
  }

  function ResolveAll(rows: seq<Row>, firing: seq<Firing>, now: int): seq<Row> {
    if rows == [] then [] else ResolveAll(rows[..|rows| - 1], firing, now) + [Resolved(rows[|rows| - 1], firing, now)]
  }

  function Reconciled(rows: seq<Row>, firing: seq<Firing>, now: int): seq<Row> {
    ResolveAll(UpsertAll(rows, firing, now), firing, now)
  }

  class AlertTable {
    var rows: seq<Row>

    constructor ()
      ensures rows == []
    {
      rows := [];
    }

    method UpdateActive(f: Firing, now: int) returns (updated: bool)
      modifies this
      ensures rows == BumpAll(old(rows), f, now)
      ensures updated == AnyActive(old(rows), f.rule)
    {
      ghost var before := rows;
      updated := false;
      var done := [];
      for i := 0 to |rows|
        invariant rows == before
        invariant done == BumpAll(rows[..i], f, now) && updated == AnyActive(rows[..i], f.rule)
      {
        assert rows[..i + 1][..i] == rows[..i];
        updated := updated || IsActive(rows[i], f.rule);
        done := done + [Bumped(rows[i], f, now)];
      }
      assert rows[..|rows|] == rows;
      rows := done;
    }

    method ResolveSilent(firing: seq<Firing>, now: int)
      modifies this
      ensures rows == ResolveAll(old(rows), firing, now)
    {
      ghost var before := rows;
      var done := [];
      for i := 0 to |rows|
        invariant rows == before
        invariant done == ResolveAll(rows[..i], firing, now)
      {
        assert rows[..i + 1][..i] == rows[..i];
        done := done + [Resolved(rows[i], firing, now)];
      }
      assert rows[..|rows|] == rows;
      rows := done;
    }

    /** Steps 1 and 2 of getAlerts. */
    method Reconcile(firing: seq<Firing>, now: int)
      modifies this
      ensures rows == Reconciled(old(rows), firing, now)
    {
      ghost var before := rows;
      for k := 0 to |firing|
        invariant rows == UpsertAll(before, firing[..k], now)
      {
        assert firing[..k + 1][..k] == firing[..k];
        var updated := UpdateActive(firing[k], now);
        if !updated {
          NoneToBump(UpsertAll(before, firing[..k], now), firing[k], now);
          rows := rows + [Row(firing[k], true, now, now, None)];
        }
      }
      assert firing[..|firing|] == firing;
      ResolveSilent(firing, now);
    }
  }

  lemma {:induction false} NoneToBump(rows: seq<Row>, f: Firing, now: int)
    requires !AnyActive(rows, f.rule)
    ensures BumpAll(rows, f, now) == rows
  {
    if rows != [] {
      NoneToBump(rows[..|rows| - 1], f, now);
    }
  }
}
