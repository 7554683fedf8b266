/** packages/execution-core/src/positions.ts. */
module Positions {
  import opened Wrappers
  import opened Decimal
  import opened ExecutionTypes

  function Sign(direction: Direction): int {
    match direction
    case Long => 1
    case Short => -1
    case Flat => 0
  }

  function EmptyPosition(intent: Intent): Position {
    Position(intent.direction, PositionStatus.NoPosition, 0, 0, 0, None, intent.stop, intent.targets, None, None)
  }

  function OpenPosition(intent: Intent, filled: int, avg: Option<int>, at: int): Position {
    var qty := Max(0, filled);
    Position(intent.direction, if qty > 0 then PositionStatus.Open else PositionStatus.Opening,
             Sign(intent.direction) * qty, qty, 0, avg, intent.stop, intent.targets, Some(at), None)
  }

  function ReducePosition(p: Position, quantity: real, at: int): Position {
    var closed := Min(p.entryQuantity, p.closedQuantity + Max(0, Round(quantity)));
    var remaining := p.entryQuantity - closed;
    p.(status := if remaining <= 0 then PositionStatus.Closed else PositionStatus.Reducing,
       quantity := Sign(p.direction) * remaining,
       closedQuantity := closed,
       closedAt := if remaining <= 0 then Some(at) else p.closedAt)
  }

  function ClosePosition(p: Position, at: int): Position {
    p.(status := PositionStatus.Closed, quantity := 0, closedQuantity := p.entryQuantity, closedAt := Some(at))
  }

  /** What is left of the position: above zero for LONG, below zero for SHORT. */
  predicate Signed(p: Position) {
    match p.direction
    case Long => p.quantity == p.entryQuantity - p.closedQuantity
    case Short => p.quantity == p.closedQuantity - p.entryQuantity
    case Flat => p.quantity == 0
  }

  predicate IsLive(p: Position) {
    p.status == PositionStatus.Open || p.status == PositionStatus.Reducing
  }
}
