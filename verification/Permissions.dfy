/** packages/control/src/permission.ts. */
module Permissions {
  import opened Wrappers
  import opened Decisions

  datatype Health = Healthy | Degraded | Failing | Unknown

  datatype Freshness = Freshness(lag: Option<real>, stale: real)

  datatype ControlInputs = ControlInputs(
    database: Health, redis: Health, quant: Health, features: Freshness, signals: Freshness, execution: Freshness,
    riskEngineActive: bool, killEngaged: bool)

  datatype Check =
    | DatabaseCheck | RedisCheck | QuantCheck | FeatureCheck | SignalCheck | ExecutionCheck
    | RiskCheck | KillCheck | StateCheck

  datatype Reason = Reason(check: Check, ok: bool)

  /** A required stream is fresh if it was observed and is within its bound. */
  predicate StreamFresh(f: Freshness) { f.lag.Some? && f.lag.value <= f.stale }

  /** A path that never executed may place its first order. */
  predicate NotStalled(f: Freshness) { f.lag.None? || f.lag.value <= f.stale }

  /** What permission stands for: every condition at once, and the state machine in HEALTHY. */
  predicate Permitted(x: ControlInputs, state: Option<RuntimeState>) {
    && x.database.Healthy? && x.redis.Healthy? && x.quant.Healthy?
    && StreamFresh(x.features) && StreamFresh(x.signals) && NotStalled(x.execution)
    && x.riskEngineActive && !x.killEngaged
    && (state.Some? ==> state.value.HEALTHY?)
  }

  predicate AllOk(reasons: seq<Reason>) { forall i :: 0 <= i < |reasons| ==> reasons[i].ok }

  /** The checks in their order. */
  function Checks(x: ControlInputs, state: Option<RuntimeState>): (reasons: seq<Reason>)
    ensures |reasons| == if state.Some? then 9 else 8
  {
    [Reason(DatabaseCheck, x.database.Healthy?), Reason(RedisCheck, x.redis.Healthy?),
     Reason(QuantCheck, x.quant.Healthy?), Reason(FeatureCheck, StreamFresh(x.features)),
     Reason(SignalCheck, StreamFresh(x.signals)), Reason(ExecutionCheck, NotStalled(x.execution)),
     Reason(RiskCheck, x.riskEngineActive), Reason(KillCheck, !x.killEngaged)]
    + if state.Some? then [Reason(StateCheck, state.value.HEALTHY?)] else []
  }

  /** All checks pass exactly when trading is permitted. */
  lemma AllChecks(x: ControlInputs, state: Option<RuntimeState>)
    ensures AllOk(Checks(x, state)) <==> Permitted(x, state)
  {
    var reasons := Checks(x, state);
    if AllOk(reasons) {
      assert reasons[0].ok && reasons[1].ok && reasons[2].ok && reasons[3].ok;
      assert reasons[4].ok && reasons[5].ok && reasons[6].ok && reasons[7].ok;
      assert state.Some? ==> reasons[8].ok;
    }
  }

  predicate Blocks(check: Check, x: ControlInputs, state: Option<RuntimeState>) {
    Reason(check, false) in Checks(x, state)
  }

  function Place(check: Check): nat {
    match check
    case DatabaseCheck => 0
    case RedisCheck => 1
    case QuantCheck => 2
    case FeatureCheck => 3
    case SignalCheck => 4
    case ExecutionCheck => 5
    case RiskCheck => 6
    case KillCheck => 7
    case StateCheck => 8
  }

  lemma InTheirPlaces(x: ControlInputs, state: Option<RuntimeState>)
    ensures var reasons := Checks(x, state); forall i :: 0 <= i < |reasons| ==> Place(reasons[i].check) == i
  {
  }

  /** A check blocks exactly when what stands in its place failed. */
  lemma BlocksInPlace(check: Check, x: ControlInputs, state: Option<RuntimeState>)
    ensures Blocks(check, x, state) <==> Place(check) < |Checks(x, state)| && !Checks(x, state)[Place(check)].ok
  {
    var reasons := Checks(x, state);
    InTheirPlaces(x, state);
    if Place(check) < |reasons| {
      var r := reasons[Place(check)];
      assert Place(r.check) == Place(check);
      assert r == Reason(check, r.ok);
    }
  }

  /** What each check looks at: a stream never seen fails it, and an execution path that never ran does not. */
  predicate Fails(check: Check, x: ControlInputs, state: Option<RuntimeState>) {
    match check
    case DatabaseCheck => x.database != Healthy
    case RedisCheck => x.redis != Healthy
    case QuantCheck => x.quant != Healthy
    case FeatureCheck => x.features.lag.Some? ==> x.features.lag.value > x.features.stale
    case SignalCheck => x.signals.lag.Some? ==> x.signals.lag.value > x.signals.stale
    case ExecutionCheck => x.execution.lag.Some? && x.execution.lag.value > x.execution.stale
    case RiskCheck => !x.riskEngineActive
    case KillCheck => x.killEngaged
    case StateCheck => state.Some? && state.value != HEALTHY
  }

  /** Each check blocks exactly when it fails. */
  lemma BlocksIff(check: Check, x: ControlInputs, state: Option<RuntimeState>)
    ensures Blocks(check, x, state) <==> Fails(check, x, state)
  {
    BlocksInPlace(check, x, state);
    var reasons := Checks(x, state);
    assert state.Some? ==> reasons[8] == Reason(StateCheck, state.value.HEALTHY?);
  }

  method PushReasons(x: ControlInputs, state: Option<RuntimeState>) returns (reasons: seq<Reason>)
    ensures reasons == Checks(x, state)
  {
    reasons := [];
    reasons := reasons + [Reason(DatabaseCheck, x.database.Healthy?)];
    reasons := reasons + [Reason(RedisCheck, x.redis.Healthy?)];
    reasons := reasons + [Reason(QuantCheck, x.quant.Healthy?)];
    reasons := reasons + [Reason(FeatureCheck, StreamFresh(x.features))];
    reasons := reasons + [Reason(SignalCheck, StreamFresh(x.signals))];
    var stalled := x.execution.lag.Some? && x.execution.lag.value > x.execution.stale;
    reasons := reasons + [Reason(ExecutionCheck, !stalled)];
    reasons := reasons + [Reason(RiskCheck, x.riskEngineActive)];
    reasons := reasons + [Reason(KillCheck, !x.killEngaged)];
    if state.Some? {
      reasons := reasons + [Reason(StateCheck, state.value.HEALTHY?)];
    }
  }

  method EvaluateTradingPermission(x: ControlInputs, state: Option<RuntimeState>)
      returns (permission: Permission, reasons: seq<Reason>, blockedBy: seq<Reason>)
    ensures permission.ALLOWED? <==> Permitted(x, state)
    ensures reasons == Checks(x, state)
    ensures forall r :: r in blockedBy <==> r in reasons && !r.ok
  {
    reasons := PushReasons(x, state);
    blockedBy := [];
    for i := 0 to |reasons|
      invariant forall r :: r in blockedBy <==> r in reasons[..i] && !r.ok
    {
      assert reasons[..i + 1] == reasons[..i] + [reasons[i]];
      if !reasons[i].ok {
        blockedBy := blockedBy + [reasons[i]];
      }
    }
    assert reasons[..|reasons|] == reasons;
    permission := if |blockedBy| == 0 then ALLOWED else DENIED;
    NoneBlocked(reasons, blockedBy);
    AllChecks(x, state);
  }

  lemma NoneBlocked(reasons: seq<Reason>, blockedBy: seq<Reason>)
    requires forall r :: r in blockedBy <==> r in reasons && !r.ok
    ensures |blockedBy| == 0 <==> AllOk(reasons)
  {
    if |blockedBy| > 0 {
      assert blockedBy[0] in blockedBy;
    }
  }
}
