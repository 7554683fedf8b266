/**
 * The contracts of packages/execution-core/src/types.ts. Quantities are whole numbers of
 * 1e-8 units, prices are reals in 1e-8 units, ids are structured values instead of strings,
 * and the fixed reason texts are the constructors of `Note`.
 */
module ExecutionTypes {
  import opened Wrappers

  datatype Direction = Long | Short | Flat

  datatype Side = Buy | Sell

  datatype Role = Entry | Stop | Target

  datatype OrderKind = Limit | StopTrigger

  datatype Mode = Simulation | Paper | Live | Backtest

  datatype Venue = Unset | Simulated | Deribit | Binance | Bybit

  datatype Provenance = Verbatim | Derived | Estimated | Unavailable

  datatype Source = ExecutionCore | KillSwitch | Runtime

  datatype Action = StrongBuy | Buy | StrongSell | Sell | Watch | Wait | NoTrade

  datatype Status =
    | NotCreated | Planned | Ready | Submitted | Acknowledged | PartiallyFilled
    | Filled | Open | Reducing | Closed | Rejected | Expired | Cancelled | Failed

  datatype OrderStatus =
    | NotCreated | Planned | Ready | Submitted | Acknowledged | PartiallyFilled
    | Filled | Cancelled | Rejected | Expired | Failed

  datatype PositionStatus = NoPosition | Opening | Open | Reducing | Closed

  datatype FillStatus = Partial | Full | Void

  datatype FailureReason =
    | NoDecision | NoPlan | Blocked | MissingEntry | MissingStop | MissingTarget
    | MissingReadiness | KillSwitch | RuntimeUnhealthy | IllegalTransition
    | ValidationFailed | Expired | Cancelled | Rejected | Failed
    // raised by the adapter only
    | AdapterShutdown | NotBound | NotSubmitted | DuplicateSubmit | UnknownOrder
    | Terminal | UnsupportedOperation

  datatype Failure = Failure(reason: FailureReason, at: int, fatal: bool)

  /** `orderId(planId, role, index)`; the plan id is determined by the signal id. */
  datatype OrderId = OrderId(signalId: string, role: Role, index: nat)

  datatype FillId = FillId(order: OrderId, index: nat)

  datatype Intent = Intent(
    signalId: string,
    direction: Direction,
    entry: Option<real>,
    stop: Option<real>,
    targets: seq<real>,
    positionSize: Option<int>,
    action: Action,
    canTrade: bool,
    shouldTrade: bool,
    readinessScore: Option<real>,
    mode: Mode,
    venue: Venue,
    createdAt: int)

  datatype Order = Order(
    id: OrderId,
    side: Side,
    role: Role,
    kind: OrderKind,
    price: Option<real>,
    quantity: Option<int>,
    status: OrderStatus,
    filled: int,
    avgFillPrice: Option<int>,
    updatedAt: int)

  datatype FillRecord = FillRecord(
    id: FillId,
    order: OrderId,
    side: Side,
    price: int,
    quantity: int,
    status: FillStatus,
    cumulative: int,
    ts: int)

  datatype Plan = Plan(
    signalId: string,
    direction: Direction,
    orders: seq<Order>,
    totalQuantity: Option<int>,
    submittable: bool,
    blockedReason: Option<FailureReason>,
    createdAt: int)

  datatype Position = Position(
    direction: Direction,
    status: PositionStatus,
    quantity: int,
    entryQuantity: int,
    closedQuantity: int,
    avgEntryPrice: Option<int>,
    stop: Option<real>,
    targets: seq<real>,
    openedAt: Option<int>,
    closedAt: Option<int>)

  datatype Entity = ExecutionEntity | PlanEntity | OrderEntity(id: OrderId) | PositionEntity

  datatype EventKind =
    | Planned | Armed | Submitted | Acknowledged | PartiallyFilled | Filled | Opened
    | Reduced | Closed | Cancelled | Rejected | Expired | Failed | Killed | RejectedTransition

  datatype Note =
    | KillEngaged | RuntimeBad | PlannedFromDecision | GatesPass | OrdersSubmitted
    | VenueAcknowledged | EntryPartiallyFilled | EntryFilled | OpenedFromEntry
    | PositionReduced | PositionFullyReduced
    | ProtectiveReduced(role: Role) | ProtectiveClosed(role: Role)
    | PositionClosed | ExecutionCancelled | ExecutionRejected | ExecutionExpired | ExecutionFailed
    // supplied by the adapter or its caller
    | CancelRequestedFor(id: OrderId) | AllOrdersCancelled | ShutdownCancel | Given(text: string)

  datatype Event = Event(
    seqNo: int,
    entity: Entity,
    kind: EventKind,
    previous: Status,
    next: Status,
    source: Source,
    provenance: Provenance,
    reason: Note,
    ts: int)

  datatype Audit = Audit(events: seq<Event>, count: int)

  datatype Lifecycle = Lifecycle(current: Status, history: seq<Status>, terminal: bool)

  datatype State = State(
    status: Status,
    intent: Intent,
    plan: Option<Plan>,
    orders: seq<Order>,
    fills: seq<FillRecord>,
    position: Position,
    lifecycle: Lifecycle,
    audit: Audit,
    failure: Option<Failure>,
    seqNo: int,
    clock: int,
    updatedAt: int)

  datatype Command =
    | Plan(at: int)
    | Arm(at: int)
    | Submit(at: int)
    | Acknowledge(at: int)
    | Fill(at: int, orderId: OrderId, price: real, quantity: real)
    | Open(at: int)
    | Reduce(at: int, quantity: real)
    | Close(at: int)
    | Cancel(at: int, reason: Option<Note>)
    | Reject(at: int, reason: Option<Note>)
    | Expire(at: int)
    | Fail(at: int, reason: Option<Note>)
    | Kill(at: int)
    | RuntimeUnhealthy(at: int)

  /** `ok`, the next state, the event appended (if any) and the failure (if any). */
  datatype Result = Result(ok: bool, state: State, event: Option<Event>, failure: Option<Failure>)
}
